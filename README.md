# Pet adoption system: access rules, password handling and account records

A Dafny model of the decision core of the pet adoption back end (`sistema-adocao-pets`).
The model covers these parts:

- **Route authorization.** Both `SecurityFilterChain` route tables are ordered, first-match lists of matcher → rule entries. A refused caller without a token goes to the authentication entry point, and a refused caller with a token goes to the access-denied handler (403). The JWT chain registers its own entry point, which answers 401. The second chain registers none, so Spring Security's default entry point answers 403 there too.
- **Password encoding.** The delegating password encoder registers PBKDF2 under the id `pbkdf2`. The start-up runner re-encodes every stored password that does not start with `{bcrypt}`.
- **Sign-in normalisation.** An identifier that holds `@` is lower-cased before authentication.
- **User and ong accounts.** Registration derives the stored record. A full update overwrites the editable fields of the loaded entity. A partial update applies a JSON map to the entity field by field, in the map's iteration order, and merges nested address and links objects in place.
- **Uniqueness validators.** The ong validator checks e-mail, CNPJ, cell and user name, in that order. The administrator validator checks e-mail, user name and cell, in that order, and has no CNPJ. In both, the first conflict throws.
- **Exception advice.** The controller advice maps every exception to an HTTP status and a list of messages.

The pure parts are functions with lemmas. The parts that mutate state are classes:

- `Ong`, `Usuario`, `EnderecoVO` and `SiteVO` are entities changed field by field.
- The repositories hold their rows in a `seq` field.
- The runner's `Database` holds the three tables plus a log of saves.

Each method is proved against a specification function: `PatchAll`, `Updated`, `MigrateAll`, `SavesFor`, `MergeEndereco` and the others.

Foreign code enters as function-typed parameters or constant fields:

- hashing (`encode`, `matches`);
- authentication and token issuance;
- the postal-code lookup and the address check;
- the user validator;
- bean validation.

Files, one module each:

| file | module |
|---|---|
| wrappers.dfy | `Wrappers`: Option, Result, Outcome |
| json.dfy | `JsonValues`: the values of a partial-update map |
| roles.dfy | `Roles` |
| text.dfy | `Text`: ASCII lower-casing, index of a character |
| exceptions.dfy | `ExceptionHandling`: the controller advice |
| validation.dfy | `Validation`: lookups, guard clauses, first failure |
| field_updates.dfy | `FieldUpdates`: value conversion of one map entry |
| login.dfy | `Login`: identifier normalisation and `logar` |
| route_policy.dfy | `RoutePolicy`: patterns, first-match decision, entry point / access-denied split |
| security_routes.dfy | `SecurityRoutes`: the JWT chain's table and its rule lemmas |
| security_access.dfy | `SecurityAccess`: what that table means per caller |
| config_routes.dfy | `ConfigRoutes`: the second chain's table |
| password_encoder.dfy | `PasswordEncoding`: the delegating encoder |
| password_migration.dfy | `PasswordMigration`: the start-up re-encoding pass |
| contact.dfy | `Contact`: address and links objects and their merge |
| ong_validation.dfy | `OngValidation` |
| admin_validation.dfy | `AdminValidation` |
| usuario_service.dfy | `UsuarioAccounts` |
| ong_service.dfy | `OngAccounts` |

Source paths below are relative to the repository root.

## Model

| member | source | states |
|---|---|---|
| RoutePolicy.Decide | src/main/java/br/com/alevh/sistema_adocao_pets/security/SecurityConfig.java:33-81 | The rule is that of the first entry whose method and patterns match; there is none exactly when no entry matches. |
| RoutePolicy.FirstMatchWins | src/main/java/br/com/alevh/sistema_adocao_pets/security/SecurityConfig.java:33-81 | If entry i is the first that matches, its rule decides, whatever follows it. |
| RoutePolicy.DecideAppend | src/main/java/br/com/alevh/sistema_adocao_pets/security/SecurityConfig.java:33-81 | In a table made of two blocks, the second block is consulted only when nothing in the first matches. |
| RoutePolicy.LitsMatch | src/main/java/br/com/alevh/sistema_adocao_pets/config/SecurityConfig.java:60-68 | A literal pattern matches exactly its own path. With a trailing `/**` it matches exactly the paths that start with it. |
| RoutePolicy.Authorize | src/main/java/br/com/alevh/sistema_adocao_pets/security/SecurityConfig.java:84-87 | Permit iff the first matching rule grants. Otherwise an anonymous caller gets the entry point (401) and a caller with a token gets the access-denied handler (403). An unmatched request is refused. |
| RoutePolicy.RoleGate | src/main/java/br/com/alevh/sistema_adocao_pets/security/SecurityConfig.java:41-78 | When a hasAnyRole entry decides, a caller holding one of the roles passes, an anonymous caller gets 401 and any other caller gets 403. |
| RoutePolicy.BlockRefuses | src/main/java/br/com/alevh/sistema_adocao_pets/security/SecurityConfig.java:44-50 | If a block matches and none of its rules grants the caller, the caller is refused, whatever follows the block. |
| SecurityAccess.DocumentationIsPublic | src/main/java/br/com/alevh/sistema_adocao_pets/security/SecurityConfig.java:35-36 | Swagger, api-docs and webjars paths are permitted for every method and caller. |
| SecurityAccess.UnlistedIsOpen | src/main/java/br/com/alevh/sistema_adocao_pets/security/SecurityConfig.java:80-81 | A request that no listed entry matches is permitted to every caller, with or without a token. |
| SecurityAccess.AdministradoresAreAdminOnly | src/main/java/br/com/alevh/sistema_adocao_pets/security/SecurityConfig.java:41 | Every method on `/api/v1/administradores` and below is gated by ADMIN. |
| SecurityAccess.UsuarioListingIsAdminOnly | src/main/java/br/com/alevh/sistema_adocao_pets/security/SecurityConfig.java:44 | GET `/api/v1/usuarios` is gated by ADMIN. |
| SecurityAccess.UsuarioByNameIsUserOrAdmin | src/main/java/br/com/alevh/sistema_adocao_pets/security/SecurityConfig.java:45 | GET `/api/v1/usuarios/{nomeUsuario}` is gated by USER or ADMIN. |
| SecurityAccess.IdAdocoesIsShadowed | src/main/java/br/com/alevh/sistema_adocao_pets/security/SecurityConfig.java:46-47 | GET `/api/v1/usuarios/id/adocoes` also matches `{id}/adocoes`, whose rule admits USER. The earlier `id/{id}` decides, so only ADMIN passes. |
| SecurityAccess.OngRefusedOnUsuarioRoutes | src/main/java/br/com/alevh/sistema_adocao_pets/security/SecurityConfig.java:44-50 | Whichever usuario route decides, an ONG caller is denied (403). |
| SecurityAccess.UsuarioPostIsOpen | src/main/java/br/com/alevh/sistema_adocao_pets/security/SecurityConfig.java:44-81 | No usuario entry is for POST, so POST `/api/v1/usuarios` falls through to anyRequest and is permitted to every caller. |
| SecurityAccess.AnimalWritesAreAdminOrOng | src/main/java/br/com/alevh/sistema_adocao_pets/security/SecurityConfig.java:67-70 | A non-GET request that an animal route matches is gated by ADMIN or ONG. |
| SecurityAccess.AdocaoWritesAreAdminOrOng | src/main/java/br/com/alevh/sistema_adocao_pets/security/SecurityConfig.java:75-78 | A non-GET request that an adoption route matches is gated by ADMIN or ONG. |
| SecurityAccess.ReadsAreOpenToEveryRole | src/main/java/br/com/alevh/sistema_adocao_pets/security/SecurityConfig.java:64-74 | Listing animals, reading an animal by name and reading an adoption are gated by ADMIN, ONG or USER. |
| SecurityRoutes.MissesOtherResource | src/main/java/br/com/alevh/sistema_adocao_pets/security/SecurityConfig.java:41-78 | A block whose patterns all start with `/api/v1/<resource>` matches no request aimed at another resource. |
| SecurityRoutes.AccessFor | src/main/java/br/com/alevh/sistema_adocao_pets/security/SecurityConfig.java:33-81 | Definition of the JWT chain's decision: Authorize over the documentation entry, the administrator entry, the usuario, ong, animal and adoption blocks, and anyRequest, in declaration order. The SecurityAccess lemmas state what it decides per route. |
| SecurityRoutes.Block | src/main/java/br/com/alevh/sistema_adocao_pets/security/SecurityConfig.java:44-78 | Definition: one method-qualified hasAnyRole entry per route below `/api/v1/<resource>`, in declaration order. |
| ConfigRoutes.EntriesMatch | src/main/java/br/com/alevh/sistema_adocao_pets/config/SecurityConfig.java:58-69 | Each of the four entries matches exactly the paths its matchers name. |
| ConfigRoutes.AccessFor | src/main/java/br/com/alevh/sistema_adocao_pets/config/SecurityConfig.java:58-69 | Definition of this chain's decision: Authorize over the table of the public entry, `/api/**`, `/usuarios` and `/ongs`, in declaration order. The lemmas of this module state what it decides. |
| ConfigRoutes.PublicEntryMatches | src/main/java/br/com/alevh/sistema_adocao_pets/config/SecurityConfig.java:60-65 | The first entry matches exactly the sign-in, refresh, swagger-ui and api-docs subtrees. |
| ConfigRoutes.PublicPathsArePublic | src/main/java/br/com/alevh/sistema_adocao_pets/config/SecurityConfig.java:60-68 | Sign-in, refresh and documentation paths are decided by permitAll for every method and caller. No later entry can block them. |
| ConfigRoutes.ApiNeedsAuthentication | src/main/java/br/com/alevh/sistema_adocao_pets/config/SecurityConfig.java:66 | Any path under `/api` is permitted to every caller with a token and sends an anonymous caller to the entry point. |
| ConfigRoutes.UsuariosAndOngsAreClosed | src/main/java/br/com/alevh/sistema_adocao_pets/config/SecurityConfig.java:67-68 | `/usuarios` and `/ongs` are refused to every caller. A caller without a token goes to the entry point; this chain configures none, so Spring's default answers 403. A caller with a token goes to the access-denied handler (403). |
| ConfigRoutes.UnlistedIsClosed | src/main/java/br/com/alevh/sistema_adocao_pets/config/SecurityConfig.java:58-69 | With no anyRequest entry, a path outside the four matchers matches nothing and is refused to everyone. |
| PasswordEncoding.ExtractId | src/main/java/br/com/alevh/sistema_adocao_pets/config/SecurityConfig.java:32-40 | The id is the text between a leading `{` and the first `}`. It is absent exactly when there is no leading `{` or no `}`. |
| PasswordEncoding.ExtractEncoded | src/main/java/br/com/alevh/sistema_adocao_pets/config/SecurityConfig.java:32-40 | The hash is what follows the first `}`, or the whole value when there is none. |
| PasswordEncoding.Encode | src/main/java/br/com/alevh/sistema_adocao_pets/config/SecurityConfig.java:35-37 | Definition: a new hash is PBKDF2's hash behind the `{pbkdf2}` tag. EncodeIsTagged proves that the tag and the hash can be read back. |
| PasswordEncoding.Matches | src/main/java/br/com/alevh/sistema_adocao_pets/config/SecurityConfig.java:32-40 | Definition: a value tagged `pbkdf2` is checked on the hash after the tag, and any other value is checked whole by the default encoder. MatchesOwnHash and UnrecognisedIdFallsBack state both cases. |
| PasswordEncoding.EncodeIsTagged | src/main/java/br/com/alevh/sistema_adocao_pets/config/SecurityConfig.java:35-37 | A new hash carries the id `pbkdf2`, and the text after the tag is PBKDF2's own hash. |
| PasswordEncoding.MatchesOwnHash | src/main/java/br/com/alevh/sistema_adocao_pets/config/SecurityConfig.java:35-38 | Checking a password against its fresh hash is exactly PBKDF2's check. |
| PasswordEncoding.UnrecognisedIdFallsBack | src/main/java/br/com/alevh/sistema_adocao_pets/config/SecurityConfig.java:38 | A stored value without the `pbkdf2` id is checked whole by the PBKDF2 encoder. |
| PasswordEncoding.EncodeIsNotBcrypt | src/main/java/br/com/alevh/sistema_adocao_pets/config/SecurityConfig.java:35-37 | No new hash starts with `{bcrypt}`. |
| PasswordMigration.MigrateAll | src/main/java/br/com/alevh/sistema_adocao_pets/runner/PasswordEncoderRunner.java:39-62 | After the pass, each record holds the encoding of its password if it lacked the tag, and its password unchanged otherwise. |
| PasswordMigration.Migrated | src/main/java/br/com/alevh/sistema_adocao_pets/runner/PasswordEncoderRunner.java:40-42 | Definition of one record's new password: its encoding if it lacks the skipped prefix, and itself otherwise. |
| PasswordMigration.SavesFor | src/main/java/br/com/alevh/sistema_adocao_pets/runner/PasswordEncoderRunner.java:39-45 | Definition of the saves one loop makes, in table order. SavesArePending states that they are exactly the pending records. |
| PasswordMigration.Pending | src/main/java/br/com/alevh/sistema_adocao_pets/runner/PasswordEncoderRunner.java:40 | The records the pass re-encodes are exactly those without the tag, each once, in increasing order. |
| PasswordMigration.SavesArePending | src/main/java/br/com/alevh/sistema_adocao_pets/runner/PasswordEncoderRunner.java:39-45 | The saves of one table are the pending records, each exactly once, in table order, each with its encoded password. So the number of saves is the number of untagged records. |
| PasswordMigration.RerunSavesNothingIff | src/main/java/br/com/alevh/sistema_adocao_pets/runner/PasswordEncoderRunner.java:40-43 | A second pass saves nothing iff every password the first pass wrote carries the tag. |
| PasswordMigration.MigrateStep | src/main/java/br/com/alevh/sistema_adocao_pets/runner/PasswordEncoderRunner.java:40-44 | One iteration changes only its own record and appends its save, if any, to the log. |
| PasswordMigration.RerunRehashes | src/main/java/br/com/alevh/sistema_adocao_pets/runner/PasswordEncoderRunner.java:40-43 | As written, every record the pass re-encoded is pending again on the next start, and after two starts it holds the encoding of its own earlier hash. |
| PasswordMigration.TaggedRerunIsNoOp | src/main/java/br/com/alevh/sistema_adocao_pets/runner/PasswordEncoderRunner.java:40-43 | If the pass skipped the configured encoder's own tag `{pbkdf2}`, a second start would save nothing and change no table. |
| PasswordMigration.Database.constructor | src/main/java/br/com/alevh/sistema_adocao_pets/runner/PasswordEncoderRunner.java:35-37 | The three tables hold the given rows and nothing has been saved yet. |
| PasswordMigration.Database.FindAll | src/main/java/br/com/alevh/sistema_adocao_pets/runner/PasswordEncoderRunner.java:35-37 | `findAll` returns the current rows of one repository. |
| PasswordMigration.Database.Save | src/main/java/br/com/alevh/sistema_adocao_pets/runner/PasswordEncoderRunner.java:43 | A save replaces one record's password in its own table, leaves the other tables alone and is logged. |
| PasswordMigration.PasswordEncoderRunner.constructor | src/main/java/br/com/alevh/sistema_adocao_pets/runner/PasswordEncoderRunner.java:30 | The runner holds the given repositories, encoder and skip prefix. The source's prefix is `{bcrypt}`; see Findings. |
| PasswordMigration.PasswordEncoderRunner.Run | src/main/java/br/com/alevh/sistema_adocao_pets/runner/PasswordEncoderRunner.java:34-63 | All three tables are read first. Each is then replaced by its migrated version for the skip prefix. The saves are those of usuarios, then ongs, then administradores. |
| PasswordMigration.PasswordEncoderRunner.MigrateRow | src/main/java/br/com/alevh/sistema_adocao_pets/runner/PasswordEncoderRunner.java:40-44 | One loop body: the processed prefix grows by one record, with its save logged if it lacked the tag; other tables are untouched. |
| PasswordMigration.PasswordEncoderRunner.MigrateRows | src/main/java/br/com/alevh/sistema_adocao_pets/runner/PasswordEncoderRunner.java:39-45 | One loop: the table becomes its migrated version, the other tables are untouched, and the log grows by that table's saves. |
| Text.ToLower | src/main/java/br/com/alevh/sistema_adocao_pets/service/UsuarioService.java:125 | Lower-casing keeps the length and lower-cases each ASCII letter in place. |
| Text.ToLowerIdempotent | src/main/java/br/com/alevh/sistema_adocao_pets/service/UsuarioService.java:125 | A lower-cased string has no upper-case letter, and lower-casing it again changes nothing. |
| Login.NormalizeIdentifier | src/main/java/br/com/alevh/sistema_adocao_pets/service/UsuarioService.java:139-141 | An identifier holding `@` is lower-cased. Any other identifier is passed on as typed. The length is kept. |
| Login.NormalizeKeepsAt | src/main/java/br/com/alevh/sistema_adocao_pets/service/UsuarioService.java:139-141 | Normalising keeps an e-mail an e-mail and a user name a user name. |
| Login.NormalizeIdempotent | src/main/java/br/com/alevh/sistema_adocao_pets/service/UsuarioService.java:139-141 | Normalising twice is normalising once. |
| Login.EmailCaseIsIgnored | src/main/java/br/com/alevh/sistema_adocao_pets/service/OngService.java:154-156 | Two spellings of one e-mail that differ only in letter case normalise alike. |
| Login.Logar | src/main/java/br/com/alevh/sistema_adocao_pets/service/UsuarioService.java:134-152 | When authenticating the normalised identifier succeeds, the answer is the token generated for the principal it returns. When it fails, its error is passed on unchanged. |
| Login.LogarIgnoresEmailCase | src/main/java/br/com/alevh/sistema_adocao_pets/service/OngService.java:149-167 | A sign-in with an e-mail gets the same answer however the e-mail's letters are cased. |
| ExceptionHandling.Handle | src/main/java/br/com/alevh/sistema_adocao_pets/exceptions/CustomExceptionHandler.java:18-100 | Not-found kinds give 404, a null object or invalid arguments give 400, IllegalState gives 409, bad credentials or an invalid token give 401, and anything else gives 500. Each clause is an iff. Every response except the validation one carries exactly the exception's message. |
| ExceptionHandling.FieldMessages | src/main/java/br/com/alevh/sistema_adocao_pets/exceptions/CustomExceptionHandler.java:86-100 | One `field: message` entry per field error, in order. |
| Validation.FindFirst | src/main/java/br/com/alevh/sistema_adocao_pets/util/validations/OngValidacao.java:88-102 | A lookup finds nothing iff no stored row satisfies the condition. What it finds is a stored row that does. |
| Validation.FirstFailure | src/main/java/br/com/alevh/sistema_adocao_pets/util/validations/OngValidacao.java:25-36 | A run of guard clauses passes iff every guard passes. Otherwise the result is the first guard that throws. |
| Validation.KeyGuard | src/main/java/br/com/alevh/sistema_adocao_pets/util/validations/OngValidacao.java:55-61 | A missing key passes and a null value throws. A string, lower-cased when asked, is refused only when its holder is not the caller's own record. |
| FieldUpdates.ToText | src/main/java/br/com/alevh/sistema_adocao_pets/service/UsuarioService.java:189 | Converting to a string field fails iff the value is an object; a string converts to itself. |
| FieldUpdates.ToRole | src/main/java/br/com/alevh/sistema_adocao_pets/service/UsuarioService.java:189 | Within the modelled forms, a role converts only from its exact constant name; null converts to no role. |
| FieldUpdates.RoleNameRoundTrip | src/main/java/br/com/alevh/sistema_adocao_pets/service/UsuarioService.java:189 | Every role converts back from its name. |
| FieldUpdates.Lowered | src/main/java/br/com/alevh/sistema_adocao_pets/service/UsuarioService.java:185-187 | The string value of the `email` key is lower-cased; every other entry passes unchanged. |
| FieldUpdates.ApplyAll | src/main/java/br/com/alevh/sistema_adocao_pets/service/UsuarioService.java:180-191 | Definition shared by both services: the entries are applied in the map's iteration order, and the first failure stops the update. Its properties are proved in ApplyFailureSticks and in each service's lemmas. |
| FieldUpdates.ApplyFailureSticks | src/main/java/br/com/alevh/sistema_adocao_pets/service/OngService.java:203-264 | Once an entry fails, the whole update fails with that entry's error, whatever the later entries are. |
| OngValidation.ExistsOngWithEmail | src/main/java/br/com/alevh/sistema_adocao_pets/util/validations/OngValidacao.java:88-90 | True iff some stored ong has that e-mail. |
| OngValidation.ExistsOngWithCnpj | src/main/java/br/com/alevh/sistema_adocao_pets/util/validations/OngValidacao.java:92-94 | True iff some stored ong has that CNPJ. |
| OngValidation.ExistsOngWithCell | src/main/java/br/com/alevh/sistema_adocao_pets/util/validations/OngValidacao.java:100-102 | True iff some stored ong has that cell. |
| OngValidation.ExistsOngWithNomeUsuario | src/main/java/br/com/alevh/sistema_adocao_pets/util/validations/OngValidacao.java:96-98 | True iff some stored ong has that user name. |
| OngValidation.ValidateUpdate | src/main/java/br/com/alevh/sistema_adocao_pets/util/validations/OngValidacao.java:39-52 | The outcome is the first failing guard among lower-cased e-mail, CNPJ, cell and user name, in that order. |
| OngValidation.Validate | src/main/java/br/com/alevh/sistema_adocao_pets/util/validations/OngValidacao.java:20-37 | A missing body gives RequiredObjectIsNull("JSON vazio"). Otherwise the outcome is the same four guards. |
| OngValidation.ValidateOutcome | src/main/java/br/com/alevh/sistema_adocao_pets/util/validations/OngValidacao.java:20-37 | Validation passes iff no stored ong holds any of the four values. A refusal is an IllegalState answered with 409. A missing body is answered with 400 and "JSON vazio". |
| OngValidation.StoredCnpjAlwaysConflicts | src/main/java/br/com/alevh/sistema_adocao_pets/util/validations/OngValidacao.java:39-52 | With no self-exemption, any record carrying a stored ong's CNPJ is refused with 409. |
| OngValidation.ValidateUpdateOf | src/main/java/br/com/alevh/sistema_adocao_pets/util/validations/OngValidacao.java:39-52 | The corrected update check refuses only with IllegalState. |
| OngValidation.ValidateUpdateOfExemptsOwnValues | src/main/java/br/com/alevh/sistema_adocao_pets/util/validations/OngValidacao.java:39-52 | Over unique rows, the corrected check passes iff no ong with another id holds any of the four values. |
| OngValidation.FreeValuesPass | src/main/java/br/com/alevh/sistema_adocao_pets/util/validations/OngValidacao.java:39-52 | Values held by no other ong pass the corrected check. |
| OngValidation.OtherHolderRefused | src/main/java/br/com/alevh/sistema_adocao_pets/util/validations/OngValidacao.java:39-52 | Over unique rows, a value held by another ong is refused by the corrected check. |
| OngValidation.ValidatePartialUpdate | src/main/java/br/com/alevh/sistema_adocao_pets/util/validations/OngValidacao.java:54-86 | Passes iff each of the four key guards passes: e-mail, CNPJ, cell, user name. Otherwise it throws the first failing guard's error. |
| OngValidation.UnrelatedUpdatesPass | src/main/java/br/com/alevh/sistema_adocao_pets/util/validations/OngValidacao.java:55-79 | A map without any of the four keys is never refused, so an empty map always passes. |
| OngValidation.PartialEmailOfOtherRefused | src/main/java/br/com/alevh/sistema_adocao_pets/util/validations/OngValidacao.java:55-61 | A new e-mail that another ong holds, compared lower-cased, is refused with "E-mail já está em uso por outra ong". |
| OngValidation.PartialOwnValuesPass | src/main/java/br/com/alevh/sistema_adocao_pets/util/validations/OngValidacao.java:54-86 | Values held by the ong with the given id, or by no ong, pass. |
| AdminValidation.ExistsAdministradorWithEmail | src/main/java/br/com/alevh/sistema_adocao_pets/util/validations/AdministradorValidacao.java:20-22 | True iff some stored administrator has that e-mail. |
| AdminValidation.ExistsAdministradorWithNomeUsuario | src/main/java/br/com/alevh/sistema_adocao_pets/util/validations/AdministradorValidacao.java:24-26 | True iff some stored administrator has that user name. |
| AdminValidation.ExistsAdministradorWithCell | src/main/java/br/com/alevh/sistema_adocao_pets/util/validations/AdministradorValidacao.java:28-30 | True iff some stored administrator has that cell. |
| AdminValidation.ValidateUpdate | src/main/java/br/com/alevh/sistema_adocao_pets/util/validations/AdministradorValidacao.java:48-58 | The outcome is the first failing guard among lower-cased e-mail, user name and cell, in that order. |
| AdminValidation.Validate | src/main/java/br/com/alevh/sistema_adocao_pets/util/validations/AdministradorValidacao.java:32-46 | A missing body gives RequiredObjectIsNull("Não há dados"). Otherwise the outcome is the same three guards. |
| AdminValidation.ValidateOutcome | src/main/java/br/com/alevh/sistema_adocao_pets/util/validations/AdministradorValidacao.java:32-46 | Validation passes iff none of the three values is taken. A refusal is answered with 409. A missing body is answered with 400. |
| AdminValidation.StoredNomeUsuarioConflicts | src/main/java/br/com/alevh/sistema_adocao_pets/util/validations/AdministradorValidacao.java:48-58 | With no self-exemption, a record carrying a stored administrator's user name is refused. |
| AdminValidation.ValidatePartialUpdate | src/main/java/br/com/alevh/sistema_adocao_pets/util/validations/AdministradorValidacao.java:60-84 | Passes iff each of the three key guards passes: e-mail, user name, cell. Otherwise it throws the first failing guard's error. |
| AdminValidation.UnrelatedUpdatesPass | src/main/java/br/com/alevh/sistema_adocao_pets/util/validations/AdministradorValidacao.java:61-77 | A map without any of the three keys is never refused. |
| AdminValidation.PartialRenameChecksOthers | src/main/java/br/com/alevh/sistema_adocao_pets/util/validations/AdministradorValidacao.java:69-75 | The exemption is by user name. Renaming to a user name another administrator holds is refused. Keeping one's own user name is refused only if the cell guard refuses. |
| AdminValidation.PartialOwnValuesPass | src/main/java/br/com/alevh/sistema_adocao_pets/util/validations/AdministradorValidacao.java:60-84 | Values held by the administrator with the given user name, or by no administrator, pass. |
| Contact.Over | src/main/java/br/com/alevh/sistema_adocao_pets/service/OngService.java:219-220 | A non-null update value overwrites; a null one keeps the stored value. |
| Contact.EnderecoFieldsDetermine | src/main/java/br/com/alevh/sistema_adocao_pets/service/OngService.java:219-232 | The seven keys name every address field: two addresses that agree on each key are equal. |
| Contact.SiteFieldsDetermine | src/main/java/br/com/alevh/sistema_adocao_pets/service/OngService.java:242-257 | The eight keys name every link field: two link objects that agree on each key are equal. |
| Contact.MergeEndereco | src/main/java/br/com/alevh/sistema_adocao_pets/service/OngService.java:219-232 | Each address field of the merge is the update's value when it is not null, and the stored value otherwise. |
| Contact.MergeSite | src/main/java/br/com/alevh/sistema_adocao_pets/service/OngService.java:242-257 | Each link field of the merge is the update's value when it is not null, and the stored value otherwise. |
| Contact.MergeEnderecoLaws | src/main/java/br/com/alevh/sistema_adocao_pets/service/OngService.java:219-232 | Merging an all-null address is the identity. Merging the same update twice is merging it once. Merging into an all-null address gives the update. An update with every field set replaces the address. |
| Contact.MergeSiteLaws | src/main/java/br/com/alevh/sistema_adocao_pets/service/OngService.java:242-257 | The same four laws over the eight link fields. |
| Contact.ToEndereco | src/main/java/br/com/alevh/sistema_adocao_pets/service/OngService.java:213 | Conversion to an address succeeds iff every key names an address field. Each of the seven fields then holds the map's value for its key, or null when the key is missing. |
| Contact.ToSite | src/main/java/br/com/alevh/sistema_adocao_pets/service/OngService.java:237 | Conversion to links succeeds iff every key names a link field. Each of the eight fields then holds the map's value for its key, or null when the key is missing. |
| Contact.MergeConvertedEndereco | src/main/java/br/com/alevh/sistema_adocao_pets/service/OngService.java:213-232 | A convertible map always converts. Merging it sets each address field to the map's value when the map names that field with a non-null value. Every field the map omits or sets to null keeps the stored value. |
| Contact.MergeConvertedSite | src/main/java/br/com/alevh/sistema_adocao_pets/service/OngService.java:237-257 | The same for the links: a non-null value the map names overwrites its field, and every other link field keeps the stored value. |
| Contact.EnderecoVO.constructor | src/main/java/br/com/alevh/sistema_adocao_pets/service/OngService.java:213 | A new address object holds the given fields. |
| Contact.EnderecoVO.MergeFrom | src/main/java/br/com/alevh/sistema_adocao_pets/service/OngService.java:219-232 | The in-place merge leaves the object holding MergeEndereco of its old value and the update. |
| Contact.SiteVO.constructor | src/main/java/br/com/alevh/sistema_adocao_pets/service/OngService.java:237 | A new links object holds the given fields. |
| Contact.SiteVO.MergeFrom | src/main/java/br/com/alevh/sistema_adocao_pets/service/OngService.java:242-257 | The in-place merge leaves the object holding MergeSite of its old value and the update. |
| UsuarioAccounts.Registered | src/main/java/br/com/alevh/sistema_adocao_pets/service/UsuarioService.java:118-132 | A failed validation is passed on and nothing is derived. Otherwise the record has the given id and role USER. It stores the lower-cased e-mail, the encoding of the password (never the plain text) and the CPF text. Name, user name, photo and cell are taken from the request. |
| UsuarioAccounts.RegisteredEmailSignsIn | src/main/java/br/com/alevh/sistema_adocao_pets/service/UsuarioService.java:125 | The stored e-mail is what sign-in normalisation makes of the e-mail typed in any letter case. |
| UsuarioAccounts.RegisteredPasswordIsTagged | src/main/java/br/com/alevh/sistema_adocao_pets/service/UsuarioService.java:124 | With the delegating encoder, the stored password carries the `pbkdf2` id and matches the registered password exactly when PBKDF2 accepts it. It lacks `{bcrypt}`, so the start-up pass will re-encode it. |
| UsuarioAccounts.Updated | src/main/java/br/com/alevh/sistema_adocao_pets/service/UsuarioService.java:159-164 | Definition of update's setters: name, user name, photo and cell as given, the lower-cased e-mail and the encoded password. UpdatedKeepsIdentity states what it keeps. |
| UsuarioAccounts.UpdatedKeepsIdentity | src/main/java/br/com/alevh/sistema_adocao_pets/service/UsuarioService.java:159-164 | An update keeps id, CPF and role and stores a lower-case e-mail. Repeating it stores the same record in every field except the password, which the salted encoder hashes anew each time. |
| UsuarioAccounts.UnknownKeysAreIgnored | src/main/java/br/com/alevh/sistema_adocao_pets/service/UsuarioService.java:180-191 | A map whose keys name no field leaves the user unchanged. |
| UsuarioAccounts.Patch | src/main/java/br/com/alevh/sistema_adocao_pets/service/UsuarioService.java:181-190 | Definition of one entry: a key naming no field is ignored. Otherwise the value, lower-cased for `email`, is converted to the field's type and set, or the conversion's error is returned. |
| UsuarioAccounts.PatchAll | src/main/java/br/com/alevh/sistema_adocao_pets/service/UsuarioService.java:180-191 | Definition: ApplyAll of Patch over the map's iteration order. UnknownKeysAreIgnored and PatchedEmail state its effect. |
| UsuarioAccounts.PatchedEmail | src/main/java/br/com/alevh/sistema_adocao_pets/service/UsuarioService.java:185-189 | After a partial update the e-mail is the lower-cased string of the `email` entry, null for a null entry, and unchanged without the entry. |
| UsuarioAccounts.PartialOutcome | src/main/java/br/com/alevh/sistema_adocao_pets/service/UsuarioService.java:193-203 | A conversion failure is the outcome. When every entry converted and bean validation finds no violation, the outcome is the patched record. Violations give one error carrying all their messages. A success is always a patched record without violations. |
| UsuarioAccounts.IndexOfNome | src/main/java/br/com/alevh/sistema_adocao_pets/service/UsuarioService.java:156-157 | No position iff no user has that user name. A position found holds that user name. |
| UsuarioAccounts.Usuario.constructor | src/main/java/br/com/alevh/sistema_adocao_pets/service/UsuarioService.java:156 | The loaded entity holds the stored record. |
| UsuarioAccounts.Usuario.SetField | src/main/java/br/com/alevh/sistema_adocao_pets/service/UsuarioService.java:181-190 | The entity becomes Patch of its old value. On a conversion failure the error is returned and the entity is unchanged. |
| UsuarioAccounts.UsuarioRepository.constructor | src/main/java/br/com/alevh/sistema_adocao_pets/service/UsuarioService.java:127 | The repository holds the given rows. |
| UsuarioAccounts.UsuarioRepository.FindByNomeUsuario | src/main/java/br/com/alevh/sistema_adocao_pets/service/UsuarioService.java:156-157 | Null iff no user has that user name; otherwise a fresh entity holding the row that IndexOfNome finds. |
| UsuarioAccounts.UsuarioRepository.Save | src/main/java/br/com/alevh/sistema_adocao_pets/service/UsuarioService.java:204 | Saving a loaded entity replaces its row only. |
| UsuarioAccounts.UsuarioRepository.Insert | src/main/java/br/com/alevh/sistema_adocao_pets/service/UsuarioService.java:127 | Saving a new entity appends its row. |
| UsuarioAccounts.UsuarioService.constructor | src/main/java/br/com/alevh/sistema_adocao_pets/service/UsuarioService.java:118-132 | The service holds the given repository, encoder, validators and bean validation. |
| UsuarioAccounts.UsuarioService.Create | src/main/java/br/com/alevh/sistema_adocao_pets/service/UsuarioService.java:118-132 | The result is Registered of the validation outcome. The row is appended only on success. |
| UsuarioAccounts.UsuarioService.Update | src/main/java/br/com/alevh/sistema_adocao_pets/service/UsuarioService.java:154-171 | An unknown user gives ResourceNotFound. Otherwise the updated record is validated. A failure leaves the table unchanged; a pass saves the record in the user's row. |
| UsuarioAccounts.UsuarioService.PartialUpdate | src/main/java/br/com/alevh/sistema_adocao_pets/service/UsuarioService.java:173-207 | The outcome is not-found, then the validator's refusal, then PartialOutcome. The user's row is saved only on success, and the table is unchanged otherwise. |
| OngAccounts.RowsOf | src/main/java/br/com/alevh/sistema_adocao_pets/util/validations/OngValidacao.java:88-102 | The validators see each stored ong's id and four unique columns. |
| OngAccounts.Registered | src/main/java/br/com/alevh/sistema_adocao_pets/service/OngService.java:129-147 | A failed address check is passed on first. After that, the registration succeeds iff the uniqueness check passes, and a failed check's error is passed on. A success has the given id and role ONG. It stores the lower-cased e-mail, the encoding of the password, the CNPJ text and the completed address. The other fields are taken from the request. |
| OngAccounts.RegisteredIffFresh | src/main/java/br/com/alevh/sistema_adocao_pets/service/OngService.java:129-147 | Once the address is accepted, a registration succeeds iff no stored ong holds the lower-cased e-mail, the CNPJ, the cell or the user name. A refusal is a conflict. |
| OngAccounts.RegisteredKeepsUnique | src/main/java/br/com/alevh/sistema_adocao_pets/service/OngService.java:129-147 | A registration that passed keeps the stored ongs unique on every unique column. |
| OngAccounts.Updated | src/main/java/br/com/alevh/sistema_adocao_pets/service/OngService.java:176-185 | Definition of update's setters: every field of the body, the e-mail lower-cased and the password encoded. Id, CNPJ and role stay. |
| OngAccounts.UpdateAlwaysConflicts | src/main/java/br/com/alevh/sistema_adocao_pets/service/OngService.java:187 | As written, the update check refuses every update of a stored ong. |
| OngAccounts.CorrectedUpdateAccepts | src/main/java/br/com/alevh/sistema_adocao_pets/service/OngService.java:169-194 | With the own-id exemption, an update whose e-mail, cell and user name no other ong holds is accepted. |
| OngAccounts.NewEndereco | src/main/java/br/com/alevh/sistema_adocao_pets/service/OngService.java:211-233 | Without a stored address the converted object becomes the address; otherwise it is merged field by field. |
| OngAccounts.NewSite | src/main/java/br/com/alevh/sistema_adocao_pets/service/OngService.java:235-258 | The same for the links object. |
| OngAccounts.Patch | src/main/java/br/com/alevh/sistema_adocao_pets/service/OngService.java:204-262 | Definition of one entry. An `endereco` or `site` object is converted and merged. Any other value goes through the conversion to the field's type, and null clears a nested object. A key naming no field is ignored. |
| OngAccounts.PatchAll | src/main/java/br/com/alevh/sistema_adocao_pets/service/OngService.java:203-264 | Definition: ApplyAll of Patch over the map's iteration order. PatchedEndereco states its effect on the address. |
| OngAccounts.PatchedEndereco | src/main/java/br/com/alevh/sistema_adocao_pets/service/OngService.java:211-233 | After a partial update the address is the merge of the `endereco` object into the stored one, or the object itself when there was none. Without the entry the address is unchanged. |
| OngAccounts.PartialOutcome | src/main/java/br/com/alevh/sistema_adocao_pets/service/OngService.java:266-276 | A failed entry is the outcome. When every entry applied and bean validation finds no violation, the outcome is the patched record. Violations give one error carrying all their messages. A success is always a patched record without violations. |
| OngAccounts.IndexOfNome | src/main/java/br/com/alevh/sistema_adocao_pets/service/OngService.java:197-198 | No position iff no ong has that user name. A position found holds that user name. |
| OngAccounts.Ong.constructor | src/main/java/br/com/alevh/sistema_adocao_pets/service/OngService.java:197 | The loaded entity and its fresh address and links objects hold the stored record. |
| OngAccounts.Ong.SetField | src/main/java/br/com/alevh/sistema_adocao_pets/service/OngService.java:204-261 | The entity, its address and its links become Patch of the old value. On failure the error is returned and nothing changes. |
| OngAccounts.Ong.SetFields | src/main/java/br/com/alevh/sistema_adocao_pets/service/OngService.java:203-264 | The entity becomes PatchAll of its old value over the map's iteration order, or the first failure is returned. |
| OngAccounts.Ong.SetEndereco | src/main/java/br/com/alevh/sistema_adocao_pets/service/OngService.java:211-233 | An `endereco` entry is applied as Patch says: merged in place, or set, or cleared. The links are untouched. |
| OngAccounts.Ong.SetSite | src/main/java/br/com/alevh/sistema_adocao_pets/service/OngService.java:235-258 | A `site` entry is applied as Patch says; the address is untouched. |
| OngAccounts.Ong.SetScalar | src/main/java/br/com/alevh/sistema_adocao_pets/service/OngService.java:259-261 | Any other entry is converted and set as Patch says. An unknown key changes nothing. |
| OngAccounts.Ong.SetTextField | src/main/java/br/com/alevh/sistema_adocao_pets/service/OngService.java:260 | Sets one nullable text field and nothing else. |
| OngAccounts.Ong.SetColumnField | src/main/java/br/com/alevh/sistema_adocao_pets/service/OngService.java:260 | Sets one unique column and nothing else. |
| OngAccounts.Ong.ApplyUpdate | src/main/java/br/com/alevh/sistema_adocao_pets/service/OngService.java:176-185 | The entity becomes Updated of its old value: the given fields, the lower-cased e-mail and the encoded password. |
| OngAccounts.Ong.SetNames | src/main/java/br/com/alevh/sistema_adocao_pets/service/OngService.java:176-178 | Sets nome, user name and photo only. |
| OngAccounts.Ong.SetLogin | src/main/java/br/com/alevh/sistema_adocao_pets/service/OngService.java:179-180 | Sets e-mail and password only. |
| OngAccounts.Ong.SetContact | src/main/java/br/com/alevh/sistema_adocao_pets/service/OngService.java:182-184 | Sets cell, person in charge and description only. |
| OngAccounts.Ong.ReplaceEndereco | src/main/java/br/com/alevh/sistema_adocao_pets/service/OngService.java:181 | Replaces the address only. |
| OngAccounts.Ong.ReplaceSite | src/main/java/br/com/alevh/sistema_adocao_pets/service/OngService.java:185 | Replaces the links only. |
| OngAccounts.OngRepository.constructor | src/main/java/br/com/alevh/sistema_adocao_pets/service/OngService.java:143 | The repository holds the given rows. |
| OngAccounts.OngRepository.FindByNomeUsuario | src/main/java/br/com/alevh/sistema_adocao_pets/service/OngService.java:197-198 | Null iff no ong has that user name; otherwise a fresh entity holding the row that IndexOfNome finds. |
| OngAccounts.OngRepository.Save | src/main/java/br/com/alevh/sistema_adocao_pets/service/OngService.java:278 | Saving a loaded entity replaces its row only. |
| OngAccounts.OngRepository.Insert | src/main/java/br/com/alevh/sistema_adocao_pets/service/OngService.java:143 | Saving a new entity appends its row. |
| OngAccounts.OngService.constructor | src/main/java/br/com/alevh/sistema_adocao_pets/service/OngService.java:129-147 | The service holds the given repository, encoder, lookup, address check and bean validation. |
| OngAccounts.OngService.Create | src/main/java/br/com/alevh/sistema_adocao_pets/service/OngService.java:129-147 | The result is Registered over the stored rows. The row is appended only on success. |
| OngAccounts.OngService.Update | src/main/java/br/com/alevh/sistema_adocao_pets/service/OngService.java:169-194 | A missing body gives RequiredObjectIsNull before any lookup, and an unknown ong gives ResourceNotFound. Otherwise the updated record is checked with the ong's own values exempted (see Findings). A refusal leaves the table unchanged; a pass saves the record in the ong's row. |
| OngAccounts.OngService.PartialUpdate | src/main/java/br/com/alevh/sistema_adocao_pets/service/OngService.java:196-280 | The outcome is not-found, then the validator's refusal for the loaded ong's id, then PartialOutcome. The ong's row is saved only on success, and the table is unchanged otherwise. |

## Left out

- Hashing: PBKDF2, BCrypt and their `matches` are function parameters. Only the `{id}` prefix of the delegating encoder is modelled.
- Which password encoder is wired is left out, since two beans exist; the `BCryptPasswordEncoder` bean is at src/main/java/br/com/alevh/sistema_adocao_pets/security/SecurityConfig.java:103-106. Each route table is also modelled on its own, because which filter chain is wired is a framework question.
- Login.Logar: `authenticate` and `generateToken` are parameters. The token codec, the JWT filter and the authentication manager are not part of this model, and neither are token expiry and signatures. A caller is either anonymous or logged in with one role.
- Request matching uses literal segments, single-segment `{var}` and a trailing `/**` only. Relative patterns such as `auth/signin/**` are treated as rooted. Trailing slashes, URL decoding and servlet paths are not modelled.
- CSRF, CORS, stateless sessions and the filter order are framework configuration.
- Dozer mapping, HATEOAS links, paging and the JSON conversion of responses are library plumbing. Entities and DTOs are modelled as the same record.
- Jackson values: a partial-update map holds null, strings and objects of strings. Numbers, booleans and arrays are not modelled, and neither are the `idUsuario` and `idOng` keys, which name the entities' id fields. A key such as `id` names no field and is ignored, as in the source. A key is set only if it names one of the modelled fields; the entity's other fields are not part of this model.
- FieldUpdates.ToRole: only the exact constant names `USER`, `ONG` and `ADMIN` are modelled. Jackson's default enum conversion also accepts a name with surrounding blanks and an ordinal given as a string (such as `"0"`). The model refuses those forms, so it does not promise what such a value sets.
- Validation.KeyGuard: an object given for e-mail, CNPJ, cell or user name is treated as no conflict, because its `toString()` is not a stored value.
- OngAccounts.Patch: a null for a unique column is refused with the NullPointerException that validatePartialUpdate throws first. The other columns take null.
- Bean validation (`validator.validate`) is a function from the record to its violation messages; the constraint annotations are not shown. The messages are concatenated in the order given; the hash-set order of the original is not modelled.
- The user validator (`UsuarioValidacao`) is not part of this model and enters as three functions.
- The postal-code lookup (`CepService.preencherEndereco`) and `validarEnderecoPreenchido` are not part of this model and enter as functions.
- `toLowerCase` is modelled on ASCII letters only; Unicode and locale rules are not.
- Repository lookups return the first matching row. The unique columns make that the only one; JPA's duplicate-result exception is not modelled.
- OngService.PartialUpdate: the source calls `validatePartialUpdate(nomeUsuario, updates)` while the validator takes the ong's `Long id` (src/main/java/br/com/alevh/sistema_adocao_pets/service/OngService.java:200). As shown, that call does not type-check, so the model passes the loaded ong's id.
- UsuarioAccounts.Registered: the request's e-mail, password and CPF are typed as non-null text. A null one makes the source throw a NullPointerException, answered with 500 (src/main/java/br/com/alevh/sistema_adocao_pets/service/UsuarioService.java:123-125). That path is not modelled.
- UsuarioAccounts.UsuarioService.Update: the body's e-mail and password are non-null text. In the source a null one throws a NullPointerException, answered with 500 (src/main/java/br/com/alevh/sistema_adocao_pets/service/UsuarioService.java:162-163). That path is not modelled.
- OngAccounts.Registered: the request's e-mail, CNPJ and password are non-null text. In the source a null one throws a NullPointerException in the validator or in the service, answered with 500 (src/main/java/br/com/alevh/sistema_adocao_pets/util/validations/OngValidacao.java:25-28 and src/main/java/br/com/alevh/sistema_adocao_pets/service/OngService.java:137). That path is not modelled.
- OngAccounts.OngService.Update: the body's e-mail and password are non-null text. In the source a null one throws a NullPointerException, answered with 500 (src/main/java/br/com/alevh/sistema_adocao_pets/service/OngService.java:179-180). That path is not modelled.
- OngValidation.Validate: the request's e-mail and CNPJ are non-null text, so the NullPointerException the source throws on a null one (src/main/java/br/com/alevh/sistema_adocao_pets/util/validations/OngValidacao.java:25-28) is not modelled.
- AdminValidation.Validate: the request's e-mail is non-null text, so the NullPointerException the source throws on a null one (src/main/java/br/com/alevh/sistema_adocao_pets/util/validations/AdministradorValidacao.java:37) is not modelled.
- PasswordMigration.PasswordEncoderRunner.Run: every stored password is non-null text. In the source a null password throws a NullPointerException and start-up fails (src/main/java/br/com/alevh/sistema_adocao_pets/runner/PasswordEncoderRunner.java:40, 48 and 56). That path is not modelled.
- The text of a NullPointerException's message and of a conversion failure are not modelled: they are `Other` exceptions answered with 500.
- `model/Ong.java`, `EnderecoVO` and `SiteVO` are not part of this model. Their fields are taken from the setters the services call.
- `AdocaoService`, the controllers, `AdministradorService` and the repositories' other queries (paging, filters, deletion) are not part of this model.

## Findings

| source | as written | input that shows it | evidently intended | confidence | as-written member | corrected member |
|---|---|---|---|---|---|---|
| src/main/java/br/com/alevh/sistema_adocao_pets/runner/PasswordEncoderRunner.java:40-43 | The pass skips passwords starting with `{bcrypt}`, but the configured encoder writes `{pbkdf2}…` hashes (src/main/java/br/com/alevh/sistema_adocao_pets/config/SecurityConfig.java:35-37). | Any stored password `p`: the first start stores `{pbkdf2}H(p)`, and the next start stores `{pbkdf2}H({pbkdf2}H(p))`, so sign-in with `p` stops working. | Re-encoding only plain-text passwords, so that a second start changes nothing. The model's runner takes the prefix to skip; with `{pbkdf2}` a second start is a no-op. | not executed | PasswordMigration.RerunRehashes | PasswordMigration.TaggedRerunIsNoOp |
| src/main/java/br/com/alevh/sistema_adocao_pets/util/validations/OngValidacao.java:39-52 | `validateUpdate` refuses any value held by any stored ong, including the ong being updated. `update` keeps the ong's own CNPJ (src/main/java/br/com/alevh/sistema_adocao_pets/service/OngService.java:187). | Any stored ong and any update body: the CNPJ lookup finds the ong itself, so the update always ends in 409, at the latest with "CNPJ já está em uso". | Exempting the ong's own record, as validatePartialUpdate does by id. The model's update uses that check. | not executed | OngAccounts.UpdateAlwaysConflicts | OngValidation.ValidateUpdateOfExemptsOwnValues |
