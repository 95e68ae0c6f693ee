/** The three datasource configurations (`DataSourceConfig`,
    `DrimsoftDataSourceConfig`, `SIUJpaConfig`): each rewrites a direct
    PostgreSQL URL (port 5432) to the connection pooler (port 6543) and fills
    a Hikari pool configuration with fixed settings. */
module DataSources {
  import opened Common

  const DirectPort := ":5432/"
  const PoolerPort := ":6543/"

  /** `s.replace(w, v)`: every occurrence of `w`, scanning left to right
      without overlaps, becomes `v`. */
  function ReplaceAll(s: string, w: string, v: string): (r: string)
    requires |w| > 0
    ensures |w| == |v| ==> |r| == |s|
    decreases |s|
  {
    if |s| < |w| then s
    else if s[..|w|] == w then v + ReplaceAll(s[|w|..], w, v)
    else [s[0]] + ReplaceAll(s[1..], w, v)
  }

  /** Text without `w` is left as it is. */
  lemma {:induction false} ReplaceAbsent(s: string, w: string, v: string)
    requires |w| > 0 && !Contains(s, w)
    ensures ReplaceAll(s, w, v) == s
    decreases |s|
  {
    if |s| >= |w| {
      assert !OccursAt(s, w, 0);
      assert !Contains(s[1..], w) by {
        if Contains(s[1..], w) {
          var i :| 0 <= i <= |s[1..]| - |w| && OccursAt(s[1..], w, i);
          assert s[i + 1..i + 1 + |w|] == s[1..][i..i + |w|];
          assert OccursAt(s, w, i + 1);
        }
      }
      ReplaceAbsent(s[1..], w, v);
    }
  }

  /** A replaced segment leaves ':' first. */
  lemma ReplacementHead(t: string)
    ensures |t| >= |DirectPort| && t[..|DirectPort|] == DirectPort ==>
      ReplaceAll(t, DirectPort, PoolerPort)[0] == ':'
  {
  }

  /** A prefix free of ':' in the rewritten text was already in the original:
      every replacement starts with ':'. */
  lemma {:induction false} PrefixSurvives(t: string, p: string)
    requires ':' !in p && StartsWith(ReplaceAll(t, DirectPort, PoolerPort), p)
    ensures StartsWith(t, p)
    decreases |t|
  {
    if p != [] && |t| >= |DirectPort| {
      var r := ReplaceAll(t, DirectPort, PoolerPort);
      // A replacement would put ':' at the head of `p`.
      ReplacementHead(t);
      if t[..|DirectPort|] != DirectPort {
        assert r == [t[0]] + ReplaceAll(t[1..], DirectPort, PoolerPort);
        assert r[..|p|] == [t[0]] + ReplaceAll(t[1..], DirectPort, PoolerPort)[..|p| - 1];
        PrefixSurvives(t[1..], p[1..]);
        assert t[..|p|] == [t[0]] + t[1..][..|p| - 1];
      }
    }
  }

  /** After the rewrite no direct-port segment is left. */
  lemma {:induction false} NoDirectPortLeft(s: string)
    ensures !Contains(ReplaceAll(s, DirectPort, PoolerPort), DirectPort)
    decreases |s|
  {
    var r := ReplaceAll(s, DirectPort, PoolerPort);
    if |s| < |DirectPort| {
      assert |r| < |DirectPort|;
    } else if s[..|DirectPort|] == DirectPort {
      var rest := ReplaceAll(s[|DirectPort|..], DirectPort, PoolerPort);
      NoDirectPortLeft(s[|DirectPort|..]);
      assert r == PoolerPort + rest;
      forall i | 0 <= i <= |r| - |DirectPort| ensures !OccursAt(r, DirectPort, i) {
        if i < |PoolerPort| {
          assert r[i] == PoolerPort[i];
          assert r[i..i + |DirectPort|][0] == r[i];
        } else {
          assert r[i..i + |DirectPort|] == rest[i - |PoolerPort|..i - |PoolerPort| + |DirectPort|];
          assert !OccursAt(rest, DirectPort, i - |PoolerPort|);
        }
      }
    } else {
      var rest := ReplaceAll(s[1..], DirectPort, PoolerPort);
      NoDirectPortLeft(s[1..]);
      assert r == [s[0]] + rest;
      forall i | 0 <= i <= |r| - |DirectPort| ensures !OccursAt(r, DirectPort, i) {
        if i == 0 {
          if OccursAt(r, DirectPort, 0) {
            assert rest[..5] == "5432/" by {
              assert r[..6] == DirectPort;
              assert rest[..5] == r[1..6];
            }
            PrefixSurvives(s[1..], "5432/");
          }
        } else {
          assert r[i..i + |DirectPort|] == rest[i - 1..i - 1 + |DirectPort|];
          assert !OccursAt(rest, DirectPort, i - 1);
        }
      }
    }
  }

  /** The rewrite only turns digits 5, 4, 3, 2 into 6, 5, 4, 3; every other
      character stays where it was. */
  lemma {:induction false} OnlyPortDigitsChange(s: string)
    ensures var r := ReplaceAll(s, DirectPort, PoolerPort);
      forall i :: 0 <= i < |s| ==> r[i] == s[i] || (s[i] in "5432" && r[i] in "6543")
    decreases |s|
  {
    var r := ReplaceAll(s, DirectPort, PoolerPort);
    if |s| >= |DirectPort| {
      if s[..|DirectPort|] == DirectPort {
        var rest := s[|DirectPort|..];
        OnlyPortDigitsChange(rest);
        forall i | 0 <= i < |s| ensures r[i] == s[i] || (s[i] in "5432" && r[i] in "6543") {
          if i < |DirectPort| {
            assert s[i] == DirectPort[i] && r[i] == PoolerPort[i];
          } else {
            assert s[i] == rest[i - |DirectPort|];
          }
        }
      } else {
        OnlyPortDigitsChange(s[1..]);
      }
    }
  }

  /** A direct-port segment starts with ':' and has no other ':', so two
      segments never overlap. */
  lemma ColonOnlyAtStart(s: string, i: int)
    ensures OccursAt(s, DirectPort, i) ==> s[i] == ':'
    ensures OccursAt(s, DirectPort, 0) && 0 < i < |DirectPort| ==> s[i] != ':'
  {
    if OccursAt(s, DirectPort, i) {
      assert s[i] == s[i..i + |DirectPort|][0];
    }
    if OccursAt(s, DirectPort, 0) && 0 < i < |DirectPort| {
      assert s[i] == s[..|DirectPort|][i];
    }
  }

  /** Every direct-port segment of `s` becomes a pooler-port segment at the
      same position. */
  lemma {:induction false} ReplacesEveryOccurrence(s: string)
    ensures forall i :: OccursAt(s, DirectPort, i) ==> OccursAt(ReplaceAll(s, DirectPort, PoolerPort), PoolerPort, i)
    decreases |s|
  {
    var r := ReplaceAll(s, DirectPort, PoolerPort);
    if |s| >= |DirectPort| {
      if s[..|DirectPort|] == DirectPort {
        var rest := s[|DirectPort|..];
        ReplacesEveryOccurrence(rest);
        assert r == PoolerPort + ReplaceAll(rest, DirectPort, PoolerPort);
        forall i | OccursAt(s, DirectPort, i) ensures OccursAt(r, PoolerPort, i) {
          ColonOnlyAtStart(s, i);
          if i >= |DirectPort| {
            assert s[i..i + |DirectPort|] == rest[i - |DirectPort|..i - |DirectPort| + |DirectPort|];
            assert OccursAt(rest, DirectPort, i - |DirectPort|);
          }
        }
      } else {
        var rest := s[1..];
        ReplacesEveryOccurrence(rest);
        assert r == [s[0]] + ReplaceAll(rest, DirectPort, PoolerPort);
        forall i | OccursAt(s, DirectPort, i) ensures OccursAt(r, PoolerPort, i) {
          if i > 0 {
            assert s[i..i + |DirectPort|] == rest[i - 1..i - 1 + |DirectPort|];
            assert OccursAt(rest, DirectPort, i - 1);
          }
        }
      }
    }
  }

  /** A character the rewrite changes is one of the four port digits of a
      direct-port segment of `s`. */
  lemma {:induction false} ChangesOnlyInsideOccurrences(s: string)
    ensures var r := ReplaceAll(s, DirectPort, PoolerPort);
      forall i :: 0 <= i < |s| && r[i] != s[i] ==> exists j :: OccursAt(s, DirectPort, j) && j < i < j + 5
    decreases |s|
  {
    var r := ReplaceAll(s, DirectPort, PoolerPort);
    if |s| >= |DirectPort| {
      if s[..|DirectPort|] == DirectPort {
        var rest := s[|DirectPort|..];
        ChangesOnlyInsideOccurrences(rest);
        assert r == PoolerPort + ReplaceAll(rest, DirectPort, PoolerPort);
        forall i | 0 <= i < |s| && r[i] != s[i] ensures exists j :: OccursAt(s, DirectPort, j) && j < i < j + 5 {
          if i < |DirectPort| {
            assert s[i] == DirectPort[i] && r[i] == PoolerPort[i];
            assert OccursAt(s, DirectPort, 0);
          } else {
            assert r[i] == ReplaceAll(rest, DirectPort, PoolerPort)[i - |DirectPort|] && s[i] == rest[i - |DirectPort|];
            var j :| OccursAt(rest, DirectPort, j) && j < i - |DirectPort| < j + 5;
            assert s[j + |DirectPort|..j + 2 * |DirectPort|] == rest[j..j + |DirectPort|];
            assert OccursAt(s, DirectPort, j + |DirectPort|);
          }
        }
      } else {
        var rest := s[1..];
        ChangesOnlyInsideOccurrences(rest);
        assert r == [s[0]] + ReplaceAll(rest, DirectPort, PoolerPort);
        forall i | 0 <= i < |s| && r[i] != s[i] ensures exists j :: OccursAt(s, DirectPort, j) && j < i < j + 5 {
          assert i > 0;
          assert r[i] == ReplaceAll(rest, DirectPort, PoolerPort)[i - 1] && s[i] == rest[i - 1];
          var j :| OccursAt(rest, DirectPort, j) && j < i - 1 < j + 5;
          assert s[j + 1..j + 1 + |DirectPort|] == rest[j..j + |DirectPort|];
          assert OccursAt(s, DirectPort, j + 1);
        }
      }
    }
  }

  /** DataSourceConfig.java lines 47-50 (lines 46-49 of the other two
      configurations): a null URL stays null; a URL with the direct port has
      every such segment replaced, in place, by the pooler port; any other
      URL is kept. */
  function PoolerUrl(url: Option<string>): (r: Option<string>)
    ensures url.None? <==> r.None?
    ensures url.Some? && !Contains(url.value, DirectPort) ==> r == url
    ensures url.Some? ==> |r.value| == |url.value| && !Contains(r.value, DirectPort)
    ensures url.Some? ==> forall i :: 0 <= i < |url.value| ==>
      r.value[i] == url.value[i] || (url.value[i] in "5432" && r.value[i] in "6543")
    ensures url.Some? ==> forall i :: OccursAt(url.value, DirectPort, i) ==> OccursAt(r.value, PoolerPort, i)
    ensures url.Some? ==> forall i :: 0 <= i < |url.value| && r.value[i] != url.value[i] ==>
      exists j :: OccursAt(url.value, DirectPort, j) && j < i < j + 5
  {
    if url.Some? && Contains(url.value, DirectPort) then
      NoDirectPortLeft(url.value);
      OnlyPortDigitsChange(url.value);
      ReplacesEveryOccurrence(url.value);
      ChangesOnlyInsideOccurrences(url.value);
      Some(ReplaceAll(url.value, DirectPort, PoolerPort))
    else url
  }

  /** The rewrite is idempotent: a rewritten URL is rewritten to itself. */
  lemma RewriteIdempotent(url: Option<string>)
    ensures PoolerUrl(PoolerUrl(url)) == PoolerUrl(url)
  {
  }

  // ---------------------------------------------------------------------
  // Pool settings

  /** The part of a `HikariConfig` these classes set; None is a setting left
      at the library's default. */
  datatype PoolSettings = PoolSettings(
    jdbcUrl: Option<string>,
    username: Option<string>,
    password: Option<string>,
    maximumPoolSize: Option<int>,
    minimumIdle: Option<int>,
    idleTimeout: Option<int>,
    maxLifetime: Option<int>,
    connectionTimeout: Option<int>,
    initializationFailTimeout: Option<int>,
    leakDetectionThreshold: Option<int>,
    poolName: Option<string>,
    dataSourceProperties: map<string, string>)

  /** `new HikariConfig()`. */
  const Unset := PoolSettings(None, None, None, None, None, None, None, None, None, None, None, map[])

  /** `spring.datasource.*`: the URL, user name and password a datasource is bound to. */
  datatype ConnectionProperties = ConnectionProperties(url: Option<string>, username: Option<string>, password: Option<string>)

  /** The PgJDBC settings every pool sets for the pooler (PgBouncer). */
  predicate PoolerDriverProperties(p: map<string, string>) {
    p == map["prepareThreshold" := "0", "preferQueryMode" := "simple", "autosave" := "always"]
  }

  /** Settings every pool shares: the rewritten URL, the credentials, the
      timeouts and the driver properties. */
  predicate CommonSettings(c: PoolSettings, props: ConnectionProperties) {
    && c.jdbcUrl == PoolerUrl(props.url)
    && c.username == props.username && c.password == props.password
    && c.idleTimeout == Some(60000) && c.maxLifetime == Some(300000)
    && c.connectionTimeout == Some(20000) && c.leakDetectionThreshold == Some(60000)
    && PoolerDriverProperties(c.dataSourceProperties)
  }

  /** A pool that can keep its idle connections: minimum idle within the
      maximum, and idle connections retired before they reach their lifetime. */
  predicate Coherent(c: PoolSettings) {
    && c.maximumPoolSize.Some? && c.minimumIdle.Some? && c.idleTimeout.Some? && c.maxLifetime.Some?
    && 0 <= c.minimumIdle.value <= c.maximumPoolSize.value
    && c.idleTimeout.value < c.maxLifetime.value
  }

  /** `config.setJdbcUrl/ setUsername/ setPassword` and the three `addDataSourceProperty` calls. */
  method Connect(c: PoolSettings, props: ConnectionProperties) returns (d: PoolSettings)
    ensures d.jdbcUrl == PoolerUrl(props.url) && d.username == props.username && d.password == props.password
    ensures d.dataSourceProperties ==
      c.dataSourceProperties["prepareThreshold" := "0"]["preferQueryMode" := "simple"]["autosave" := "always"]
    ensures c.dataSourceProperties == map[] ==> PoolerDriverProperties(d.dataSourceProperties)
    ensures d.(jdbcUrl := c.jdbcUrl, username := c.username, password := c.password,
               dataSourceProperties := c.dataSourceProperties) == c
  {
    d := c;
    var url := props.url;
    if url.Some? && Contains(url.value, DirectPort) {
      url := Some(ReplaceAll(url.value, DirectPort, PoolerPort));
    }
    d := d.(jdbcUrl := url);
    d := d.(username := props.username);
    d := d.(password := props.password);
    d := d.(dataSourceProperties := d.dataSourceProperties["prepareThreshold" := "0"]);
    d := d.(dataSourceProperties := d.dataSourceProperties["preferQueryMode" := "simple"]);
    d := d.(dataSourceProperties := d.dataSourceProperties["autosave" := "always"]);
  }

  /** `DataSourceConfig.planifikaDataSource()`. */
  method PlanifikaDataSource(props: ConnectionProperties) returns (c: PoolSettings)
    ensures CommonSettings(c, props) && Coherent(c)
    ensures c.maximumPoolSize == Some(3) && c.minimumIdle == Some(1)
    ensures c.initializationFailTimeout.None?
    ensures c.poolName == Some("PlanifikaPool")
  {
    c := Unset;
    c := c.(maximumPoolSize := Some(3));
    c := c.(minimumIdle := Some(1));
    c := c.(idleTimeout := Some(60000));
    c := c.(maxLifetime := Some(300000));
    c := c.(connectionTimeout := Some(20000));
    c := c.(leakDetectionThreshold := Some(60000));
    c := c.(poolName := Some("PlanifikaPool"));
    c := Connect(c, props);
  }

  /** `DrimsoftDataSourceConfig.drimsoftDataSource()`. */
  method DrimsoftDataSource(props: ConnectionProperties) returns (c: PoolSettings)
    ensures CommonSettings(c, props) && Coherent(c)
    ensures c.maximumPoolSize == Some(2) && c.minimumIdle == Some(0)
    ensures c.initializationFailTimeout == Some(-1)
    ensures c.poolName == Some("DrimsoftPool")
  {
    c := Unset;
    c := c.(maximumPoolSize := Some(2));
    c := c.(minimumIdle := Some(0));
    c := c.(idleTimeout := Some(60000));
    c := c.(maxLifetime := Some(300000));
    c := c.(connectionTimeout := Some(20000));
    c := c.(initializationFailTimeout := Some(-1));
    c := c.(leakDetectionThreshold := Some(60000));
    c := c.(poolName := Some("DrimsoftPool"));
    c := Connect(c, props);
  }

  /** `SIUJpaConfig.siuDataSource()`. */
  method SiuDataSource(props: ConnectionProperties) returns (c: PoolSettings)
    ensures CommonSettings(c, props) && Coherent(c)
    ensures c.maximumPoolSize == Some(2) && c.minimumIdle == Some(0)
    ensures c.initializationFailTimeout == Some(-1)
    ensures c.poolName == Some("SiuPool")
  {
    c := Unset;
    c := c.(maximumPoolSize := Some(2));
    c := c.(minimumIdle := Some(0));
    c := c.(idleTimeout := Some(60000));
    c := c.(maxLifetime := Some(300000));
    c := c.(connectionTimeout := Some(20000));
    c := c.(initializationFailTimeout := Some(-1));
    c := c.(leakDetectionThreshold := Some(60000));
    c := c.(poolName := Some("SiuPool"));
    c := Connect(c, props);
  }
}
