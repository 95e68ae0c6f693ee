# planifika-users-api in Dafny

A model of the service layer of planifika-users-api, a Spring Boot API that
manages the users of the Planifika application (authenticated by Supabase),
their status, support tickets, the login of users coming from the SIU
directory, the JWT authority mapping with the path-based access rules, and
the three JDBC pool configurations.

Modules, one per part of the program:

- `Common`: Option, Result and the Java exceptions a call can end in
  (`Error(kind, message)`), JSON values for the `Map<String, Object>`
  bodies the services exchange, HTTP replies, and the string helpers the
  services use (`toUpperCase`, `isBlank`, `indexOf`, `Integer.toString`).
- `Uuids`: `java.util.UUID` as 32 hexadecimal digits, its canonical text
  form and the parser `UUID.fromString` (accepting the 8-4-4-4-12 form).
- `Tables`: the JPA repositories, as rows by primary key plus the order
  `findAll` lists them in. `save` is `Put`, `deleteById` is `Remove`.
- `UserRecords`: the `UserPlanifika` model and the `DtoUser` entity, the
  conversions between them, `UserStatusEnum`, and the two classes as
  mutable objects with their setters.
- `Users`: `UserService` over the `userplanifika` table.
- `Siu`: `SIUUserService.findBySupabaseId` and `SIUAuthService`.
- `Auth`: `AuthService` (`signUp`, `getUserWithDatabaseInfo`,
  `updateProfile`), each given the provider's replies as inputs.
- `Tickets`: `TicketService` over the ticket and ticket-status tables.
- `Security`: the JWT authorities converter and the `authorizeHttpRequests`
  rules of `SecurityConfig`.
- `DataSources`: the port rewrite of the JDBC URL and the Hikari settings
  of `DataSourceConfig`, `DrimsoftDataSourceConfig` and `SIUJpaConfig`.

Java `null` is `None`. A thrown exception is an `Err` with its kind. The
message is kept where the program writes it. Reactive pipelines
(`Mono`) become plain calls that take every reply from Supabase as a
parameter. Services that keep state (the repositories behind them) are
classes whose methods state their whole new state.

Where the code does not compile as written, or leaves a part out, the model
makes these choices:

- `SIUAuthService` calls `userService.findBySupabaseId`, which `UserService`
  does not define. The model looks the subject up in the `UserService`
  table. One extra input stands for any other failure of that lookup.
- `setSupabaseUserId` receives a `UUID` where `UserPlanifika` declares a
  `String`. The model stores the UUID's canonical text.
- `AuthService` uses a `UserRepository` over `UserPlanifika` with
  `findBySupabaseUserId`. The source of that repository is not among the
  files modelled here. It is modelled as the `AuthService` users table: a
  table of `UserPlanifika` rows with identity keys.
- The fields of `CreateTicketRequest` and `UpdateTicketRequest` are taken
  from the getters `TicketService` calls. The two classes are not part of
  this model.

All source paths below are relative to the repository root.

## Model

| member | source | states |
|---|---|---|
| `Common.Get` | src/main/java/com/planifikausersapi/usersapi/service/AuthService.java:166 | `Map.get`: a missing key and a JSON null both read as null; any other value is the stored one |
| `Common.CastString` | src/main/java/com/planifikausersapi/usersapi/service/AuthService.java:166 | `(String) o` succeeds exactly on null and on text; null stays null; any other value throws ClassCastException |
| `Common.IsErrorStatus` | src/main/java/com/planifikausersapi/usersapi/service/AuthService.java:63 | `is4xxClientError() || is5xxServerError()`: a status from 400 to 599 |
| `Common.Filter` | src/main/java/com/planifikausersapi/usersapi/service/TicketService.java:64 | the elements that satisfy the test, each from the input, and every satisfying element kept |
| `Common.FilterCounts` | src/main/java/com/planifikausersapi/usersapi/service/TicketService.java:64 | filtering keeps each satisfying element exactly as often as it occurs and drops every other one |
| `Common.FilterKeepsDistinct` | src/main/java/com/planifikausersapi/usersapi/service/TicketService.java:64 | elements told apart by a key stay told apart after filtering |
| `Common.SingleResult` | src/main/java/com/planifikausersapi/usersapi/repository/TicketStatusRepository.java:11 | a finder returning one `Optional`: empty exactly when nothing matches, IncorrectResultSizeDataAccessException exactly when two elements match, otherwise the one match |
| `Common.Contains` | src/main/java/com/planifikausersapi/usersapi/config/DataSourceConfig.java:48 | `s.contains(w)`: `w` occurs at some index of `s` |
| `Common.IndexOf` | src/main/java/com/planifikausersapi/usersapi/service/AuthService.java:211 | `indexOf(c)`: the first index holding `c`, or -1 exactly when `c` is absent |
| `Common.IsBlank` | src/main/java/com/planifikausersapi/usersapi/service/AuthService.java:265-267 | `isBlank()`: every character is whitespace |
| `Common.HasText` | src/main/java/com/planifikausersapi/usersapi/service/AuthService.java:265-267 | `s != null && !s.isBlank()` |
| `Common.EqualsIgnoreCase` | src/main/java/com/planifikausersapi/usersapi/service/AuthService.java:219 | `equalsIgnoreCase`: same length and the same letters up to ASCII case |
| `Common.IntText` | src/main/java/com/planifikausersapi/usersapi/service/UserService.java:47 | `String.valueOf(n)`: non-empty numeral text |
| `Common.IntTextInjective` | src/main/java/com/planifikausersapi/usersapi/service/UserService.java:47 | two integers with the same text are equal, so a message ending in an id names that id |
| `Common.ToUpper` | src/main/java/com/planifikausersapi/usersapi/service/UserService.java:50 | `toUpperCase` keeps the length and upper-cases each ASCII letter, character by character |
| `Common.JsonText` | src/main/java/com/planifikausersapi/usersapi/service/AuthService.java:89 | `toString()` of a JSON value: text is itself, a number its decimal text, a boolean "true" or "false", null "null"; a list or map starts with its bracket |
| `Common.UpperIsAdmin` | src/main/java/com/planifikausersapi/usersapi/config/SecurityConfig.java:49 | upper-casing gives "ADMIN" exactly when the text equals "admin" ignoring case |
| `Common.AdminTextIsString` | src/main/java/com/planifikausersapi/usersapi/service/AuthService.java:219 | only a text claim can render as "admin" in any case |
| `Uuids.Parse` | src/main/java/com/planifikausersapi/usersapi/model/UserPlanifika.java:97 | `UUID.fromString` succeeds exactly on well-formed 8-4-4-4-12 hexadecimal text and reads each digit |
| `Uuids.ToString` | src/main/java/com/planifikausersapi/usersapi/dto/DtoUser.java:103 | `UUID.toString` is lower-case canonical text carrying each digit at its position |
| `Uuids.CanonicalIsWellFormed` | src/main/java/com/planifikausersapi/usersapi/model/UserPlanifika.java:97 | canonical text is accepted by the parser |
| `Uuids.ParseToString` | src/main/java/com/planifikausersapi/usersapi/dto/DtoUser.java:103 | parsing the text of a UUID gives the same UUID back |
| `Uuids.ToStringParse` | src/main/java/com/planifikausersapi/usersapi/model/UserPlanifika.java:97 | canonical text parses to a UUID whose text is the same |
| `Uuids.ToStringInjective` | src/main/java/com/planifikausersapi/usersapi/dto/DtoUser.java:103 | two UUIDs with the same text are equal |
| `Tables.Table.Get` | src/main/java/com/planifikausersapi/usersapi/repository/UserRepository.java:10 | `findById` finds a row exactly when its key is stored |
| `Tables.Table.Put` | src/main/java/com/planifikausersapi/usersapi/repository/UserRepository.java:10 | `save` overwrites the row under its key, or lists a new key last, and keeps the table well formed |
| `Tables.Table.Remove` | src/main/java/com/planifikausersapi/usersapi/repository/TicketSupportRepository.java:10 | `deleteById` drops exactly that key, is a no-op on a missing key and keeps the table well formed |
| `Tables.Table.Values` | src/main/java/com/planifikausersapi/usersapi/repository/UserRepository.java:10 | `findAll` lists the stored rows in listing order |
| `Tables.Table.ListsEveryRow` | src/main/java/com/planifikausersapi/usersapi/repository/UserRepository.java:10 | `findAll` lists one row per stored key |
| `Tables.Table.ListsRow` | src/main/java/com/planifikausersapi/usersapi/repository/TicketSupportRepository.java:10 | every stored row is among those `findAll` lists |
| `UserRecords.StatusId` | src/main/java/com/planifikausersapi/usersapi/enums/UserStatusEnum.java:4-5 | ACTIVE has id 1 and DELETED id 2, and no other pairing |
| `UserRecords.StatusValueOf` | src/main/java/com/planifikausersapi/usersapi/enums/UserStatusEnum.java:3-5 | `valueOf` finds the constant of that exact name, and fails on every other name |
| `UserRecords.StatusName` | src/main/java/com/planifikausersapi/usersapi/enums/UserStatusEnum.java:3-5 | `name()` of each constant; see `UserRecords.StatusNameRoundTrip` |
| `UserRecords.StatusNameRoundTrip` | src/main/java/com/planifikausersapi/usersapi/enums/UserStatusEnum.java:3-5 | `valueOf(s.name())` gives back `s`, so no two constants share a name |
| `UserRecords.ToDtoUser` | src/main/java/com/planifikausersapi/usersapi/model/UserPlanifika.java:89-99 | conversion fails with NullPointerException exactly on a null id, with IllegalArgumentException on a malformed subject, and otherwise copies every field and parses the subject |
| `UserRecords.ToUserPlanifika` | src/main/java/com/planifikausersapi/usersapi/dto/DtoUser.java:95-105 | conversion copies every stored field, renders the subject as text and leaves email and password null |
| `UserRecords.DtoRoundTrip` | src/main/java/com/planifikausersapi/usersapi/dto/DtoUser.java:95-105 | converting an entity to the model and back gives the same entity |
| `UserRecords.UserRoundTrip` | src/main/java/com/planifikausersapi/usersapi/model/UserPlanifika.java:89-99 | a model user with an id and a canonical subject comes back from the entity unchanged, except email and password, which are not stored |
| `UserRecords.UserPlanifikaEntity.constructor` | src/main/java/com/planifikausersapi/usersapi/model/UserPlanifika.java:17-30 | `new UserPlanifika()` has every field null |
| `UserRecords.UserPlanifikaEntity.SetIdUser` | src/main/java/com/planifikausersapi/usersapi/model/UserPlanifika.java:37-39 | sets the id and no other field |
| `UserRecords.UserPlanifikaEntity.SetName` | src/main/java/com/planifikausersapi/usersapi/model/UserPlanifika.java:43-45 | sets the name and no other field |
| `UserRecords.UserPlanifikaEntity.SetEmail` | src/main/java/com/planifikausersapi/usersapi/model/UserPlanifika.java:49-51 | sets the email and no other field |
| `UserRecords.UserPlanifikaEntity.SetPassword` | src/main/java/com/planifikausersapi/usersapi/model/UserPlanifika.java:55-57 | sets the password and no other field |
| `UserRecords.UserPlanifikaEntity.SetPhotoUrl` | src/main/java/com/planifikausersapi/usersapi/model/UserPlanifika.java:61-63 | sets the photo URL and no other field |
| `UserRecords.UserPlanifikaEntity.SetIdUserStatus` | src/main/java/com/planifikausersapi/usersapi/model/UserPlanifika.java:67-69 | sets the status and no other field |
| `UserRecords.UserPlanifikaEntity.SetIdUserType` | src/main/java/com/planifikausersapi/usersapi/model/UserPlanifika.java:73-75 | sets the user type and no other field |
| `UserRecords.UserPlanifikaEntity.SetIdOrganization` | src/main/java/com/planifikausersapi/usersapi/model/UserPlanifika.java:79-81 | sets the organization and no other field |
| `UserRecords.UserPlanifikaEntity.SetSupabaseUserId` | src/main/java/com/planifikausersapi/usersapi/model/UserPlanifika.java:85-87 | sets the subject text and no other field |
| `UserRecords.DtoUserEntity.constructor` | src/main/java/com/planifikausersapi/usersapi/dto/DtoUser.java:14-35 | `new DtoUser()` has id 0 and every other field null |
| `UserRecords.DtoUserEntity.SetIdUser` | src/main/java/com/planifikausersapi/usersapi/dto/DtoUser.java:43-45 | sets the id and no other field |
| `UserRecords.DtoUserEntity.SetName` | src/main/java/com/planifikausersapi/usersapi/dto/DtoUser.java:51-53 | sets the name and no other field |
| `UserRecords.DtoUserEntity.SetPhotoUrl` | src/main/java/com/planifikausersapi/usersapi/dto/DtoUser.java:59-61 | sets the photo URL and no other field |
| `UserRecords.DtoUserEntity.SetIdUserStatus` | src/main/java/com/planifikausersapi/usersapi/dto/DtoUser.java:67-69 | sets the status and no other field |
| `UserRecords.DtoUserEntity.SetIdUserType` | src/main/java/com/planifikausersapi/usersapi/dto/DtoUser.java:75-77 | sets the user type and no other field |
| `UserRecords.DtoUserEntity.SetIdOrganization` | src/main/java/com/planifikausersapi/usersapi/dto/DtoUser.java:83-85 | sets the organization and no other field |
| `UserRecords.DtoUserEntity.SetSupabaseUserId` | src/main/java/com/planifikausersapi/usersapi/dto/DtoUser.java:91-93 | sets the subject and no other field |
| `Users.UserService.constructor` | src/main/java/com/planifikausersapi/usersapi/service/UserService.java:21-23 | the service starts over an empty, well-formed table |
| `Users.UserService.FindAll` | src/main/java/com/planifikausersapi/usersapi/service/UserService.java:25-34 | one user per stored row, in listing order, each the conversion of its row and converting back to it |
| `Users.UserService.FindById` | src/main/java/com/planifikausersapi/usersapi/service/UserService.java:36-39 | empty exactly when no row has the id; otherwise the stored row as a user, carrying that id and no email or password |
| `Users.UserService.Save` | src/main/java/com/planifikausersapi/usersapi/service/UserService.java:41-43 | a failed conversion leaves the table unchanged and returns its exception; otherwise the row is stored under its id and returned read back |
| `Users.UserService.UpdateStatus` | src/main/java/com/planifikausersapi/usersapi/service/UserService.java:45-57 | a missing id fails with "Usuario no encontrado con id: ", a null name with NullPointerException, an unknown name with "Estado inválido: "; otherwise only that row's status changes, to the constant's hash |
| `Users.UserService.Delete` | src/main/java/com/planifikausersapi/usersapi/service/UserService.java:59-66 | a missing id changes nothing; otherwise only that row's status changes, to the hash of DELETED |
| `Users.UserService.Insert` | src/main/java/com/planifikausersapi/usersapi/service/SIUAuthService.java:84-93 | a user without an id is stored under a key no row had, and returned read back, unless its subject text is malformed |
| `Users.UserNotFoundNamesId` | src/main/java/com/planifikausersapi/usersapi/service/UserService.java:47 | two ids with the same "Usuario no encontrado con id: " message are the same id |
| `Users.MaxKey` | src/main/java/com/planifikausersapi/usersapi/model/UserPlanifika.java:18-21 | every stored key is at most the returned one, so the next key is fresh |
| `Siu.FindBySupabaseId` | src/main/java/com/planifikausersapi/usersapi/service/SIUUserService.java:24-28 | the one entry with that subject; EntityNotFoundException with "Usuario no encontrado con supabaseUserId: " and the subject exactly when no entry has it; IncorrectResultSizeDataAccessException exactly when two entries have it |
| `Siu.SiuNotFoundMessageNamesSubject` | src/main/java/com/planifikausersapi/usersapi/service/SIUUserService.java:26-27 | two subjects with the same not-found message are the same subject |
| `Siu.SignIn` | src/main/java/com/planifikausersapi/usersapi/service/SIUAuthService.java:40-52 | a null email or password throws NullPointerException; an error status fails with "Error durante la petición de autenticación"; otherwise the reply body is the result |
| `Siu.SubjectOf` | src/main/java/com/planifikausersapi/usersapi/service/SIUAuthService.java:58 | the subject is read exactly when `user` is a map whose `id` is text of a well-formed UUID; null parts throw NullPointerException, other kinds ClassCastException |
| `Siu.ReadCredentials` | src/main/java/com/planifikausersapi/usersapi/service/SIUAuthService.java:57-58 | the access token cast fails first; the credentials are the token and the subject when both read |
| `Siu.LoginCredentials` | src/main/java/com/planifikausersapi/usersapi/service/SIUAuthService.java:55-58 | a sign-in failure is passed on as is; otherwise the credentials read from its reply |
| `Siu.LocalLookup` | src/main/java/com/planifikausersapi/usersapi/service/SIUAuthService.java:61 | any other failure wins; a found user has the subject; not found exactly when no local row has the subject |
| `Siu.NewUserFrom` | src/main/java/com/planifikausersapi/usersapi/service/SIUAuthService.java:87-90 | the new user takes name and photo from the SIU entry, the subject as text, and nothing else |
| `Siu.NewUserCannotBeSaved` | src/main/java/com/planifikausersapi/usersapi/service/SIUAuthService.java:87-92 | the user built for a new subject has no id, so its conversion throws NullPointerException |
| `Siu.NewUserWithIdCanBeSaved` | src/main/java/com/planifikausersapi/usersapi/service/SIUAuthService.java:87-92 | once given an id, that user converts and keeps the subject |
| `Siu.StoredSubjectIsFound` | src/main/java/com/planifikausersapi/usersapi/service/SIUAuthService.java:61 | a stored row for the subject makes the local lookup succeed |
| `Siu.SIUAuthService.constructor` | src/main/java/com/planifikausersapi/usersapi/service/SIUAuthService.java:26-38 | the service holds the user service and the SIU directory it is given |
| `Siu.SIUAuthService.ExternalLoginAsWritten` | src/main/java/com/planifikausersapi/usersapi/service/SIUAuthService.java:54-93 | sign-in and credential failures pass through; a local user is returned with the token; another lookup failure is rethrown; a subject missing locally fails with the SIU not-found error or NullPointerException; the table never changes |
| `Siu.SIUAuthService.ExternalLogin` | src/main/java/com/planifikausersapi/usersapi/service/SIUAuthService.java:54-93 | as the written version, except that a subject missing locally but present in SIU is stored under a fresh key and returned with the token |
| `Auth.BodyOrDefault` | src/main/java/com/planifikausersapi/usersapi/service/AuthService.java:64-65 | an empty error body reads "[No response body]"; any other body is kept |
| `Auth.StatusError` | src/main/java/com/planifikausersapi/usersapi/service/AuthService.java:66-67 | the `onStatus` message: the label, the status code in parentheses and the reply body or its default |
| `Auth.StatusErrorNamesStatus` | src/main/java/com/planifikausersapi/usersapi/service/AuthService.java:66-67 | two such messages with one label are equal only for the same status code and the same body |
| `Auth.ReplyMap` | src/main/java/com/planifikausersapi/usersapi/service/AuthService.java:123-132 | a sign-up answer has exactly the keys auth and db, or exactly the key error |
| `Auth.SignUpIdCandidate` | src/main/java/com/planifikausersapi/usersapi/service/AuthService.java:72-79 | with a `user` entry the id comes from it (null when it is null, ClassCastException when it is not a map); otherwise the top-level id |
| `Auth.SignUpSubject` | src/main/java/com/planifikausersapi/usersapi/service/AuthService.java:72-92 | succeeds exactly when a non-null id candidate is read, with its parsed text; a missing id and an unparsable one fail with their messages |
| `Auth.UserEntryShadowsId` | src/main/java/com/planifikausersapi/usersapi/service/AuthService.java:73-79 | with a `user` entry the top-level id is never consulted |
| `Auth.InsertPayload` | src/main/java/com/planifikausersapi/usersapi/service/AuthService.java:95-101 | the row sent has the six columns; status 1; type the given role or 1; the subject round-trips through its text |
| `Auth.ReadSubject` | src/main/java/com/planifikausersapi/usersapi/service/AuthService.java:166-171 | the profile's id is classified, each class exactly, as missing, not text, malformed text, or the parsed UUID |
| `Auth.MetaName` | src/main/java/com/planifikausersapi/usersapi/service/AuthService.java:199-204 | from a metadata map, full_name when present, then name, else none |
| `Auth.EmailLocalPart` | src/main/java/com/planifikausersapi/usersapi/service/AuthService.java:211 | the prefix of the email before its first '@', or the whole email when it has none |
| `Auth.ProvisionedName` | src/main/java/com/planifikausersapi/usersapi/service/AuthService.java:197-212 | the metadata name, else the local part of the email; none exactly when both are missing |
| `Auth.ProvisionedPhoto` | src/main/java/com/planifikausersapi/usersapi/service/AuthService.java:205-208 | from a metadata map, photourl when present, then avatar_url, else none |
| `Auth.AdminClaimIsString` | src/main/java/com/planifikausersapi/usersapi/service/AuthService.java:219 | a claim counts as admin exactly when it is the text "admin" in any case |
| `Auth.DerivedUserType` | src/main/java/com/planifikausersapi/usersapi/service/AuthService.java:217-226 | the type is 1 or 2, and 2 exactly when role or user_role is admin |
| `Auth.AdminRoleMakesAdminUser` | src/main/java/com/planifikausersapi/usersapi/service/AuthService.java:217-226 | as `DerivedUserType`, stated on the claim texts |
| `Auth.ViewOf` | src/main/java/com/planifikausersapi/usersapi/service/AuthService.java:176-186 | the profile view copies each column of the local user, the email and the created flag |
| `Auth.UpdatePayload` | src/main/java/com/planifikausersapi/usersapi/service/AuthService.java:289-304 | the update is exactly `IsUpdatePayload`: password exactly when one is given; data exactly when a name or a photo is given, with name, full_name and photourl each exactly when given; empty exactly when nothing is given |
| `Auth.LocalKey` | src/main/java/com/planifikausersapi/usersapi/service/AuthService.java:174 | a found key holds a row for the subject; none exactly when no row has it |
| `Auth.AuthService.constructor` | src/main/java/com/planifikausersapi/usersapi/service/AuthService.java:28 | the service starts over an empty user table |
| `Auth.AuthService.SignUp` | src/main/java/com/planifikausersapi/usersapi/service/AuthService.java:42-134 | a null email or password throws before any call; a provider error, a missing or bad id and a DB error become an error reply with "Error en signUp: "; otherwise the insert row is sent and both answers returned |
| `Auth.AuthService.ProvisionedUser` | src/main/java/com/planifikausersapi/usersapi/service/AuthService.java:193-228 | the new user has the subject, the derived name, photo and type, status ACTIVE, no organization and no id yet |
| `Auth.AuthService.GetUserWithDatabaseInfo` | src/main/java/com/planifikausersapi/usersapi/service/AuthService.java:161-262 | an error reply or a bad subject fails with nothing written; a known subject returns its view unchanged; otherwise one new row with the provisioned fields is stored under a fresh key and returned with created set |
| `Auth.AuthService.UpdateProfile` | src/main/java/com/planifikausersapi/usersapi/service/AuthService.java:264-361 | nothing to change fails first; then the subject errors; the payload sent is exactly `IsUpdatePayload`; a name or photo rewrites only those columns of the matching row; a missing row or a provider error fails; otherwise both answers |
| `Auth.ProvisionedUserIsFound` | src/main/java/com/planifikausersapi/usersapi/service/AuthService.java:174-230 | once provisioned, the subject is found by the next lookup |
| `Tickets.Respond` | src/main/java/com/planifikausersapi/usersapi/service/TicketService.java:110-121 | the response copies every ticket field and takes the status name, or null without a status |
| `Tickets.RespondIn` | src/main/java/com/planifikausersapi/usersapi/service/TicketService.java:104-108 | the status is looked up by the ticket's status id; a missing status gives a null name |
| `Tickets.Responses` | src/main/java/com/planifikausersapi/usersapi/service/TicketService.java:52-54 | one response per ticket, in order |
| `Tickets.TicketNotFoundNamesId` | src/main/java/com/planifikausersapi/usersapi/service/TicketService.java:59 | two ids with the same "Ticket not found with id: " error are the same id |
| `Tickets.ResponsesWhere` | src/main/java/com/planifikausersapi/usersapi/service/TicketService.java:63-75 | every response is a stored ticket that passes the test, every such ticket is answered, and no ticket is answered twice |
| `Tickets.ChosenTicketsDistinct` | src/main/java/com/planifikausersapi/usersapi/service/TicketService.java:63-75 | the stored tickets that pass a test carry pairwise different ids |
| `Tickets.FindPending` | src/main/java/com/planifikausersapi/usersapi/service/TicketService.java:31 | a found status is the stored status named PENDING; none exactly when no status has that name; IncorrectResultSizeDataAccessException exactly when two statuses have it |
| `Tickets.NoneListedPending` | src/main/java/com/planifikausersapi/usersapi/service/TicketService.java:31 | no listed status is PENDING exactly when no stored status is |
| `Tickets.TwoListedPending` | src/main/java/com/planifikausersapi/usersapi/service/TicketService.java:31 | two listed PENDING statuses exist exactly when two stored statuses are PENDING |
| `Tickets.CreatedPendingIsFound` | src/main/java/com/planifikausersapi/usersapi/service/TicketService.java:32-36 | a PENDING status created under a fresh key is the one found next time |
| `Tickets.TicketService.constructor` | src/main/java/com/planifikausersapi/usersapi/service/TicketService.java:23-27 | the service starts over empty ticket and status tables |
| `Tickets.TicketService.PendingStatus` | src/main/java/com/planifikausersapi/usersapi/service/TicketService.java:31-36 | the existing PENDING status, or a new one stored under a fresh key when there is none; at most one PENDING status is ever stored; the tickets are untouched |
| `Tickets.TicketService.CreateTicket` | src/main/java/com/planifikausersapi/usersapi/service/TicketService.java:30-48 | the ticket is stored under a fresh key with the request's fields, the PENDING status, no answer and no agent, and returned with status name PENDING |
| `Tickets.TicketService.GetAllTickets` | src/main/java/com/planifikausersapi/usersapi/service/TicketService.java:50-55 | one response per stored ticket, in listing order |
| `Tickets.TicketService.GetTicketById` | src/main/java/com/planifikausersapi/usersapi/service/TicketService.java:57-61 | fails exactly on a missing id, with "Ticket not found with id: "; otherwise that ticket's response |
| `Tickets.TicketService.GetTicketsByPlanifikaUser` | src/main/java/com/planifikausersapi/usersapi/service/TicketService.java:63-68 | every response is a stored ticket of that user, every stored ticket of that user is answered, and each exactly once |
| `Tickets.TicketService.GetTicketsByStatus` | src/main/java/com/planifikausersapi/usersapi/service/TicketService.java:70-75 | every response is a stored ticket with that status, every such ticket is answered, and each exactly once |
| `Tickets.TicketService.UpdateTicket` | src/main/java/com/planifikausersapi/usersapi/service/TicketService.java:77-94 | a missing id fails with nothing changed; otherwise only the non-null request fields are written, into that ticket only |
| `Tickets.TicketService.DeleteTicket` | src/main/java/com/planifikausersapi/usersapi/service/TicketService.java:96-102 | a missing id fails with "Ticket not found with id: "; otherwise exactly that ticket is removed and no longer found |
| `Security.Authority` | src/main/java/com/planifikausersapi/usersapi/config/SecurityConfig.java:49 | an authority is "ROLE_" followed by the upper-cased name, character by character |
| `Security.ClaimAuthority` | src/main/java/com/planifikausersapi/usersapi/config/SecurityConfig.java:47-53 | a null claim adds nothing; any other claim adds the authority of its text |
| `Security.RoleAuthorities` | src/main/java/com/planifikausersapi/usersapi/config/SecurityConfig.java:56-65 | the roles list converts exactly when every element is text, one authority per element in order |
| `Security.Authorities` | src/main/java/com/planifikausersapi/usersapi/config/SecurityConfig.java:43-75 | role, then user_role, then the roles list, then the scopes; it fails exactly when the roles list has an element that is not text |
| `Security.ConvertAuthorities` | src/main/java/com/planifikausersapi/usersapi/config/SecurityConfig.java:43-75 | the converter's loop computes exactly those authorities |
| `Security.AppendRoles` | src/main/java/com/planifikausersapi/usersapi/config/SecurityConfig.java:56-65 | the loop over the roles list appends exactly their authorities, or ends in the exception of the first element that is not text |
| `Security.RoleFailurePersists` | src/main/java/com/planifikausersapi/usersapi/config/SecurityConfig.java:59-62 | the first role that is not text decides the exception: NullPointerException for null, ClassCastException otherwise |
| `Security.AdminAuthority` | src/main/java/com/planifikausersapi/usersapi/config/SecurityConfig.java:49 | a role "admin" in any case becomes ROLE_ADMIN |
| `Security.ClaimsComeFirst` | src/main/java/com/planifikausersapi/usersapi/config/SecurityConfig.java:47-53 | the authorities start with those of role and user_role |
| `Security.AdminClaimGrantsAdmin` | src/main/java/com/planifikausersapi/usersapi/config/SecurityConfig.java:47-53 | a role or user_role of "admin" in any case grants ROLE_ADMIN |
| `Security.RoleComesFirst` | src/main/java/com/planifikausersapi/usersapi/config/SecurityConfig.java:47-50 | a non-null role gives the first authority |
| `Security.ScopesComeLast` | src/main/java/com/planifikausersapi/usersapi/config/SecurityConfig.java:68-72 | the scope authorities close the list, in order |
| `Security.Decide` | src/main/java/com/planifikausersapi/usersapi/config/SecurityConfig.java:84-88 | the access of the first rule whose matcher accepts the path; none exactly when no rule does |
| `Security.PatternMatches` | src/main/java/com/planifikausersapi/usersapi/config/SecurityConfig.java:84-88 | an ant pattern ending in "/**" matches its base and every path below it; any other pattern only itself |
| `Security.Allowed` | src/main/java/com/planifikausersapi/usersapi/config/SecurityConfig.java:84-88 | a request passes by the first matching rule: permitted, ROLE_ADMIN for `hasRole("ADMIN")`, or authenticated |
| `Security.DecideRules` | src/main/java/com/planifikausersapi/usersapi/config/SecurityConfig.java:84-88 | public paths are permitted, admin paths need the ADMIN role, everything else needs authentication |
| `Security.AuthIsPublic` | src/main/java/com/planifikausersapi/usersapi/config/SecurityConfig.java:85 | /auth and everything below it is open without a token |
| `Security.AdminPathsAreNotPublic` | src/main/java/com/planifikausersapi/usersapi/config/SecurityConfig.java:85-86 | no admin path is also a public path, so the admin rule is never shadowed |
| `Security.AdminNeedsAdminRole` | src/main/java/com/planifikausersapi/usersapi/config/SecurityConfig.java:86 | an admin path is allowed exactly to an authenticated caller with ROLE_ADMIN |
| `Security.OtherPathsNeedAuthentication` | src/main/java/com/planifikausersapi/usersapi/config/SecurityConfig.java:87 | any other path is allowed exactly to an authenticated caller |
| `Security.AdminClaimOpensAdminPaths` | src/main/java/com/planifikausersapi/usersapi/config/SecurityConfig.java:47-50 | a token whose role is "admin" reaches the admin paths |
| `DataSources.ReplaceAll` | src/main/java/com/planifikausersapi/usersapi/config/DataSourceConfig.java:49 | `String.replace` with a pattern and a replacement of equal length keeps the length; see `DataSources.ReplacesEveryOccurrence` and `DataSources.ChangesOnlyInsideOccurrences` |
| `DataSources.ReplaceAbsent` | src/main/java/com/planifikausersapi/usersapi/config/DataSourceConfig.java:48-49 | text without the pattern is left as it is |
| `DataSources.NoDirectPortLeft` | src/main/java/com/planifikausersapi/usersapi/config/DataSourceConfig.java:48-49 | after the rewrite no ":5432/" is left |
| `DataSources.OnlyPortDigitsChange` | src/main/java/com/planifikausersapi/usersapi/config/DataSourceConfig.java:49 | a character the rewrite changes is one of 5, 4, 3, 2 and becomes one of 6, 5, 4, 3 |
| `DataSources.ColonOnlyAtStart` | src/main/java/com/planifikausersapi/usersapi/config/DataSourceConfig.java:49 | ":5432/" has ":" only first, so two occurrences never overlap |
| `DataSources.ReplacesEveryOccurrence` | src/main/java/com/planifikausersapi/usersapi/config/DataSourceConfig.java:49 | every ":5432/" of the URL is ":6543/" at the same position after the rewrite |
| `DataSources.ChangesOnlyInsideOccurrences` | src/main/java/com/planifikausersapi/usersapi/config/DataSourceConfig.java:49 | every changed character is one of the four digits of some ":5432/" of the URL |
| `DataSources.PoolerUrl` | src/main/java/com/planifikausersapi/usersapi/config/DataSourceConfig.java:47-50 | a null URL stays null; one without ":5432/" is unchanged; otherwise every ":5432/" becomes ":6543/" in place, no ":5432/" is left, and every other character stays where it was |
| `DataSources.RewriteIdempotent` | src/main/java/com/planifikausersapi/usersapi/config/DrimsoftDataSourceConfig.java:46-49 | rewriting a rewritten URL changes nothing |
| `DataSources.Connect` | src/main/java/com/planifikausersapi/usersapi/config/SIUJpaConfig.java:46-67 | the pool gets the rewritten URL, the bound credentials and the three driver properties added to those it had; nothing else changes |
| `DataSources.PlanifikaDataSource` | src/main/java/com/planifikausersapi/usersapi/config/DataSourceConfig.java:41-70 | the Planifika pool: at most 3 connections, 1 idle, the shared timeouts, name PlanifikaPool, the default initialization timeout; idle within maximum and idle timeout below lifetime |
| `DataSources.DrimsoftDataSource` | src/main/java/com/planifikausersapi/usersapi/config/DrimsoftDataSourceConfig.java:40-69 | the Drimsoft pool: at most 2 connections, none idle, initialization never failing (-1), name DrimsoftPool; idle within maximum and idle timeout below lifetime |
| `DataSources.SiuDataSource` | src/main/java/com/planifikausersapi/usersapi/config/SIUJpaConfig.java:40-69 | the SIU pool: at most 2 connections, none idle, initialization never failing (-1), name SiuPool; idle within maximum and idle timeout below lifetime |

## Left out

- HTTP, WebClient and Reactor are not modelled. Each Supabase reply (status, error body, JSON body) is an input, and `Mono` chains are plain calls.
- Controllers, Spring bean wiring, entity-manager factories and transaction managers are not modelled. `JpaConfig` and `PlanifikaDataSourceConfig` are not part of this model.
- JPA and Hibernate are replaced by in-memory tables. Connection failures and database errors of the `AuthService` repository are not inputs, except the one extra failure input of `SIUAuthService`'s local lookup.
- Messages the JDK or a library writes (the text of a NullPointerException or ClassCastException, the `e.getMessage()` appended after the catch prefixes of `getUserWithDatabaseInfo`) are modelled as "". The fallback texts for a null message in the `onErrorResume` handlers are not modelled.
- `AuthService.signIn` and `AuthService.getUser` only forward a request. They appear as the reply inputs of the methods that use them.
- Logging (`System.out`, `printStackTrace`) is not modelled.
- `Auth.StatusError`: `clientResponse.statusCode()` is rendered as its number only. The reason phrase Spring appends is not modelled.
- `Uuids.Parse`: accepts only the 36-character 8-4-4-4-12 form. The JDK also accepts shorter groups, which the model rejects.
- `Common.ToUpper`: folds ASCII letters only. Locale-dependent case mapping of other characters is not modelled.
- `Common.JsonText`: a list or map renders only with its first character fixed. `Map.toString` layout is not modelled.
- `Users.UserService.UpdateStatus`: the status is the uninterpreted `statusHash` of the constant, because `hashCode()` of an enum is a JVM identity hash.
- `Users.UserService.Delete`: same uninterpreted `statusHash` of DELETED.
- `Siu.SIUAuthService.ExternalLoginAsWritten`: promises only an error of kind NullPointerException on the provisioning path, because the JDK writes that message.
- `Auth.AuthService.UpdateProfile`: when both the provider update and the local update fail, `Mono.zip` reports whichever fails first, which depends on timing. The model returns the local error and promises only a failure.
- `Auth.AuthService.GetUserWithDatabaseInfo`: the message of a lookup that finds two rows for one subject (IncorrectResultSizeDataAccessException) is not modelled; the first matching row is used.
- `Siu.LocalLookup`: when two local rows share a subject, the first in listing order is returned, where JPA would throw.
- `Users.UserService.FindById`, `Users.UserService.UpdateStatus`, `Users.UserService.Delete`: ids are `int` where the source takes an `Integer`; `findById(null)` throws IllegalArgumentException, which the model cannot receive.
- `Tickets.TicketService.GetTicketById`, `Tickets.TicketService.UpdateTicket`, `Tickets.TicketService.DeleteTicket`: same, with `int` ticket ids where the source takes an `Integer`.
- `Common.JsonText`: JSON numbers are unbounded integers. Jackson decodes them as `Integer`, `Long` or `Double`, and the `toString` of a `Double` (and `getClaimAsString` of a number) is not modelled.
- `Auth.LocalKey`: when two local rows share a subject the first listed is used; the repository's own behaviour there cannot be read from this source.
- `Tickets.FindPending`: the ticket-status table starts empty and only `PendingStatus` writes it, so the service never stores a second PENDING row and never meets the IncorrectResultSizeDataAccessException the finder models.
- `Tickets.RespondIn`: a ticket's status id is an `int` here and never null, so the IllegalArgumentException `findById(null)` would throw is not modelled.
- `Security`: the signature check of the JWT and Spring's scope converter are not modelled. The scope authorities are an input, already prefixed.
- `DataSources`: creating the `HikariDataSource` and opening connections are not modelled. Settings left at the library default are `None`.

## Findings

| source | as written | input that shows it | evidently intended | confidence | as-written member | corrected member |
|---|---|---|---|---|---|---|
| src/main/java/com/planifikausersapi/usersapi/service/SIUAuthService.java:84-93 | `createUserFromExternalSystem` saves a new `UserPlanifika` whose id is null; `toDtoUser` passes it to `DtoUser.setIdUser(int)`, which unboxes null and throws NullPointerException | an external login whose subject exists in SIU but has no local user | the new user is inserted under a fresh id and returned with the token | not executed | `Siu.SIUAuthService.ExternalLoginAsWritten` (with `Siu.NewUserCannotBeSaved`) | `Siu.SIUAuthService.ExternalLogin` (with `Users.UserService.Insert`) |
