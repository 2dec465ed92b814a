# Notification CRUD backend — Dafny model

This project models the service layer of a small notification backend. It keeps
three tables: notifications, notification channels and notification methods. Each
service offers `create`, `getById`, `getAll`, `updateById` and `deleteById` over
its table. `NotificationMethodService` also resolves a method's two references
before it writes. It looks up the channel through `NotificationChannelService`
first, then the notification through `NotificationService`. A failed lookup is
returned as a `NotFound` outcome, and nothing is written.

Files and modules:

- `wrappers.dfy` (`Wrappers`): `Option`, which stands for a nullable Java value, and
  `Outcome` = `Ok(value) | NotFound(message)`, which stands for `EntityNotFoundException`.
- `text.dfy` (`Text`): `Long.toString`, the not-found message
  "`<Entity>` with id: `<id>` does not exist", and `String.trim`, on which `@NotBlank` rests.
- `model.dfy` (`Model`): the three entities as datatypes with nullable fields, plus
  the id-only "shell" records that the mapper builds.
- `request.dfy` (`Request`): the three request bodies. `Valid()` is the conjunction of
  the field constraints. `Violations()` is the set of annotations the validator
  reports, each a (field, rule) pair. `MessageOf` gives the message text declared on
  that annotation.
- `mapper.dfy` (`NotificationDtoMapper`, `NotificationMethodDtoMapper`): the mapping
  functions and the notification response body.
- `store.dfy` (`Store`): the repository collaborator as a generic class
  `Repository<E>`, holding a `map<int, E>` of rows and the next generated id. It also
  holds a shared ghost `Journal` that records every repository call in order. The
  journal plays the part of the tests' mocks: "called exactly once", "never called",
  "called before".
- `service.dfy` (`Service`): the three service classes. Each method's postcondition
  gives the outcome, the new table and the exact calls appended to the journal. The
  ghost out-parameter `arg` of `updateById` and of the method service's `create` is
  the state of the caller's object after the call. The Java code updates that object
  through setters. A successful method `create` also leaves the generated id in it,
  because the store's `save` writes the id into the object it persists.
- `backend.dfy` (`Backend`): the services wired over empty tables, two lemmas that
  connect the mapper to the method service, and scenarios taken from the service tests.

Store abstraction: `save` inserts or fully replaces the row under the entity's id.
An entity without an id gets the next generated id, which is never already in use.
Every row carries its own key. `findById` returns the row or nothing. `deleteById`
removes the row and treats an absent id as no error. `findAll` returns the whole table.

`NotificationChannelService.create` never reads the channel's notification
reference, so the model's `Create` journal shows no notification lookup. Every
`getById` failure carries the message string built in the service, and the model
carries exactly that string.

## Model

| member | source | states |
|---|---|---|
| `Service.NotificationService.Create` | src/main/java/com/maksym/mytest/service/NotificationService.java:20-24 | exactly one save of `n`; the result is the row the store now holds under the result's id; an entity without an id gets a fresh one |
| `Service.NotificationService.GetById` | src/main/java/com/maksym/mytest/service/NotificationService.java:26-29 | the stored row when `id` is present, else NotFound("Notification with id: `id` does not exist"); one lookup; the table is unchanged |
| `Service.NotificationService.GetAll` | src/main/java/com/maksym/mytest/service/NotificationService.java:31-34 | returns the table as stored and changes nothing |
| `Service.NotificationService.UpdateById` | src/main/java/com/maksym/mytest/service/NotificationService.java:36-42 | absent id: NotFound, no save, table unchanged; present id: the row becomes exactly `n` with id `id`, so nothing of the old row survives; the journal is lookup then save |
| `Service.NotificationService.DeleteById` | src/main/java/com/maksym/mytest/service/NotificationService.java:44-48 | always answers true; afterwards `id` is absent and every other row is kept; one delete call |
| `Service.NotificationChannelService.Create` | src/main/java/com/maksym/mytest/service/NotificationChannelService.java:20-24 | saves `c` as given; the only call is the save, so the embedded notification is never looked up |
| `Service.NotificationChannelService.GetById` | src/main/java/com/maksym/mytest/service/NotificationChannelService.java:26-29 | the stored channel, or NotFound("NotificationChannel with id: `id` does not exist"); the table is unchanged |
| `Service.NotificationChannelService.GetAll` | src/main/java/com/maksym/mytest/service/NotificationChannelService.java:31-34 | returns the table as stored and changes nothing |
| `Service.NotificationChannelService.UpdateById` | src/main/java/com/maksym/mytest/service/NotificationChannelService.java:36-42 | absent id: NotFound with no save; present id: full replace by `c` with id `id`, the notification reference included |
| `Service.NotificationChannelService.DeleteById` | src/main/java/com/maksym/mytest/service/NotificationChannelService.java:44-48 | always true; `id` is absent afterwards |
| `Service.NotificationMethodService.Create` | src/main/java/com/maksym/mytest/service/NotificationMethodService.java:24-29 | a missing channel gives the channel's NotFound after only the channel lookup, with no write; a missing notification gives its NotFound after channel then notification lookups, with no write; otherwise channel lookup, notification lookup and one save of the method carrying the two stored records, and the caller's object ends up equal to the saved row, generated id included; the other two tables are never changed |
| `Service.NotificationMethodService.ResolveReferences` | src/main/java/com/maksym/mytest/service/NotificationMethodService.java:26-27 | the channel is looked up first, and a missing one stops before the notification lookup; each record found is set on the caller's object at once; when both exist the result is the method with both stored records in place |
| `Service.Resolve` | src/main/java/com/maksym/mytest/service/NotificationMethodService.java:26-27 | the resolved method holds the two given records as its references and keeps its id and four scalar fields |
| `Service.NotificationMethodService.GetById` | src/main/java/com/maksym/mytest/service/NotificationMethodService.java:31-34 | the stored method, or NotFound("NotificationMethod with id: `id` does not exist") |
| `Service.NotificationMethodService.GetAll` | src/main/java/com/maksym/mytest/service/NotificationMethodService.java:36-39 | returns the table as stored and changes nothing |
| `Service.NotificationMethodService.UpdateById` | src/main/java/com/maksym/mytest/service/NotificationMethodService.java:41-48 | absent id: NotFound before any reference lookup, no save; then the same channel-then-notification resolution as create, where any failure stops before the save; success replaces the row with `m`, its id set to `id` and both references resolved |
| `Service.NotificationMethodService.DeleteById` | src/main/java/com/maksym/mytest/service/NotificationMethodService.java:50-54 | always true; `id` is absent afterwards; the other tables are unchanged |
| `Store.Repository.Save` | src/main/java/com/maksym/mytest/repository/NotificationMethodRepository.java:6 | insert or full replace under the entity's id; a missing id is replaced by a fresh generated one; every row keeps carrying its own key |
| `Store.Repository.FindById` | src/main/java/com/maksym/mytest/repository/NotificationMethodRepository.java:6 | the row under `id` or nothing; no change |
| `Store.Repository.FindAll` | src/main/java/com/maksym/mytest/repository/NotificationMethodRepository.java:6 | the whole table; no change |
| `Store.Repository.DeleteById` | src/main/java/com/maksym/mytest/repository/NotificationChannelRepository.java:6 | removes `id` if present; an absent id is not an error |
| `Text.NatToDecimal` | src/main/java/com/maksym/mytest/service/NotificationService.java:28 | the id printed in the message is a non-empty string of decimal digits with no leading zero, and it reads back as the number |
| `Text.LongToString` | src/main/java/com/maksym/mytest/service/NotificationService.java:28 | the printed id is decimal digits without leading zeros, after a minus sign exactly when the id is negative, and it reads back as the id |
| `Text.NotFoundMessage` | src/main/java/com/maksym/mytest/service/NotificationService.java:28 | the message is the entity name, " with id: ", `Long.toString` of the id and " does not exist", and the id reads back from the text between them |
| `Text.NatToDecimalInjective` | src/main/java/com/maksym/mytest/service/NotificationService.java:28 | different numbers print differently |
| `Text.LongToStringInjective` | src/main/java/com/maksym/mytest/service/NotificationChannelService.java:28 | different ids, negative ones included, print differently |
| `Text.NotFoundMessageDeterminesId` | src/main/java/com/maksym/mytest/service/NotificationMethodService.java:33 | the not-found message identifies the id that was missing |
| `Text.ChannelAndNotificationMessagesDiffer` | src/main/java/com/maksym/mytest/service/NotificationMethodService.java:26-27 | a failed channel lookup and a failed notification lookup never produce the same message |
| `Text.Trim` | src/main/java/com/maksym/mytest/dto/request/NotificationDtoRequest.java:18 | `String.trim`: the slice of `s` left once the characters up to U+0020 are dropped from both ends; it is empty exactly when every character is at most U+0020, and otherwise starts and ends with a character above U+0020 |
| `Text.NotBlank` | src/main/java/com/maksym/mytest/dto/request/NotificationDtoRequest.java:18 | a present string is not blank exactly when it holds a character above U+0020 |
| `Request.PresentNotBlankIffVisibleChar` | src/main/java/com/maksym/mytest/dto/request/NotificationChannelDtoRequest.java:17-19 | `@NotNull @NotBlank` holds exactly for a present string with a character above U+0020 |
| `Request.MessageOf` | src/main/java/com/maksym/mytest/dto/request/NotificationDtoRequest.java:17-30 | the message of an annotation is its field's label ("Message", "My Data", ...) followed by the rule's text: " cannot be null", " cannot be blank" or " must be a positive number" |
| `Request.MessageOfInjective` | src/main/java/com/maksym/mytest/dto/request/NotificationMethodDtoRequest.java:17-38 | different violations carry different messages, so the reported messages determine the reported (field, rule) pairs |
| `Request.MessageFieldTexts` | src/main/java/com/maksym/mytest/dto/request/NotificationDtoRequest.java:17-18 | the two message texts on the notification's `message` field |
| `Request.UserIdFieldTexts` | src/main/java/com/maksym/mytest/dto/request/NotificationDtoRequest.java:25-26 | the two message texts on the `userId` field |
| `Request.MyDataAndPriceTexts` | src/main/java/com/maksym/mytest/dto/request/NotificationDtoRequest.java:21-30 | the `@NotNull` message texts on the `myData` and `price` fields |
| `Request.NotificationDtoRequest.Valid` | src/main/java/com/maksym/mytest/dto/request/NotificationDtoRequest.java:17-31 | the request is valid (message and userId present and not blank, myData and price present and > 0) exactly when the validator reports no violation |
| `Request.NotificationDtoRequest.Violations` | src/main/java/com/maksym/mytest/dto/request/NotificationDtoRequest.java:17-31 | each declared annotation is reported exactly when it rejects its field: `@NotNull` for null, `@NotBlank` for null or blank, `@Positive` for a present value not above zero; nothing undeclared is reported |
| `Request.NotificationChannelDtoRequest.Valid` | src/main/java/com/maksym/mytest/dto/request/NotificationChannelDtoRequest.java:17-35 | valid (title and userId not blank; amount, price and notificationId present and > 0) exactly when no violation is reported |
| `Request.NotificationChannelDtoRequest.Violations` | src/main/java/com/maksym/mytest/dto/request/NotificationChannelDtoRequest.java:17-35 | each of the ten annotations is reported exactly when it rejects its field, and nothing else is reported |
| `Request.NotificationMethodDtoRequest.Valid` | src/main/java/com/maksym/mytest/dto/request/NotificationMethodDtoRequest.java:17-39 | valid (title and userId not blank; cost, price and both reference ids present and > 0) exactly when no violation is reported |
| `Request.NotificationMethodDtoRequest.Violations` | src/main/java/com/maksym/mytest/dto/request/NotificationMethodDtoRequest.java:17-39 | each of the twelve annotations is reported exactly when it rejects its field, and nothing else is reported |
| `Request.EmptyNotificationRequestRejected` | src/test/java/com/maksym/mytest/controller/NotificationControllerTest.java:75-81 | the `{}` body is invalid and draws the four `@NotNull` and the two `@NotBlank` violations, and no `@Positive` one |
| `Request.EmptyNotificationRequestMessages` | src/test/java/com/maksym/mytest/controller/NotificationControllerTest.java:75-81 | the `{}` body reports exactly the six texts "Message cannot be null", "Message cannot be blank", "My Data cannot be null", "User Id cannot be null", "User Id cannot be blank" and "Price cannot be null" |
| `NotificationDtoMapper.ToModel` | src/main/java/com/maksym/mytest/dto/mapper/NotificationDtoMapper.java:9-18 | message, myData, userId and price are copied; id, createdAt and the channel list stay unset |
| `NotificationDtoMapper.ToModelInjective` | src/main/java/com/maksym/mytest/dto/mapper/NotificationDtoMapper.java:9-18 | no request field is lost |
| `NotificationDtoMapper.ToResponse` | src/main/java/com/maksym/mytest/dto/mapper/NotificationDtoMapper.java:20-31 | the response has exactly the entity's id, message, myData, userId, createdAt and price |
| `NotificationDtoMapper.ToResponseIgnoresChannels` | src/main/java/com/maksym/mytest/dto/mapper/NotificationDtoMapper.java:20-31 | the channel list does not affect the response |
| `NotificationDtoMapper.ResponseOfRequestEchoesFields` | src/main/java/com/maksym/mytest/dto/mapper/NotificationDtoMapper.java:9-31 | request to entity to response echoes the four request fields, with no id and no creation time |
| `NotificationMethodDtoMapper.ToModel` | src/main/java/com/maksym/mytest/dto/mapper/NotificationMethodDtoMapper.java:10-25 | the four scalar fields are copied; the method's id is unset; both references are shells whose only field is the id given in the request |
| `NotificationMethodDtoMapper.ToModelInjective` | src/main/java/com/maksym/mytest/dto/mapper/NotificationMethodDtoMapper.java:10-25 | no request field, the two ids included, is lost |
| `Model.NotificationShell` | src/main/java/com/maksym/mytest/dto/mapper/NotificationMethodDtoMapper.java:20-21 | a notification whose id is the one given and whose other fields are all unset |
| `Model.ChannelShell` | src/main/java/com/maksym/mytest/dto/mapper/NotificationMethodDtoMapper.java:17-18 | a channel whose id is the one given and whose other fields are all unset |
| `Model.ShellsAreIdOnly` | src/main/java/com/maksym/mytest/dto/mapper/NotificationMethodDtoMapper.java:17-22 | a record is a shell exactly when it equals the freshly constructed record with only its id set |
| `Backend.MappedRequestLookupKeys` | src/main/java/com/maksym/mytest/dto/mapper/NotificationMethodDtoMapper.java:17-22 | for a valid request, the keys the method service looks up are exactly the request's channel id and notification id |
| `Backend.ResolutionKeepsKeys` | src/main/java/com/maksym/mytest/service/NotificationMethodService.java:26-27 | substituting the stored records for the shells keeps both foreign keys |
| `Backend.NewBackend` | src/main/java/com/maksym/mytest/service/NotificationMethodService.java:18-22 | the method service is wired to the other two services, and all three tables share one journal |
| `Backend.CreateThenGet` | src/test/java/com/maksym/mytest/service/NotificationServiceTest.java:40-48 | a created record reads back unchanged under the id it was given |
| `Backend.CreateMethodFromRequest` | src/test/java/com/maksym/mytest/service/NotificationMethodServiceTest.java:46-58 | a method created from a request naming an existing channel and notification is saved with those stored records in place of the shells |
| `Backend.CreateMethodWithMissingChannel` | src/test/java/com/maksym/mytest/service/NotificationMethodServiceTest.java:61-70 | a missing channel yields its not-found message, the channel lookup is the only call, and no method is stored |
| `Backend.UpdateMissingMethod` | src/test/java/com/maksym/mytest/service/NotificationMethodServiceTest.java:171-179 | updating an absent method fails with its not-found message after one lookup and no save, whatever the submitted references hold |
| `Backend.DeleteTwice` | src/test/java/com/maksym/mytest/service/NotificationServiceTest.java:131-136 | deleting answers true whether or not the id existed |

## Left out

- HTTP routing, status codes, JSON shaping, Swagger annotations and the mapping of errors to 404 and 400 belong to the controller and the exception handler. They are not modelled.
- Store failures (`DataAccessException`) are left out. Every store call in the model succeeds, so the rule that such failures pass through unchanged is not modelled.
- Pagination: `getAll` returns the whole table. The `Pageable` argument and the `Page` type are not modelled, and neither is any ordering.
- Id generation is abstracted to a counter of unused keys. Nothing in the code sets `createdAt` (NotificationModel.java:33-34) or `sentAt` (NotificationChannel.java:32-33). They carry only a column mapping, and the model stores them as given.
- `save` of an entity whose id is set but not in the table inserts a row under that id. Under JPA identity generation, the store would assign a new id.
- Ids are unbounded integers, so `Long` overflow is not modelled. Decimal and `Double` amounts are reals, with no rounding and no NaN.
- Concurrency is not modelled. The lookups and the save in the method service run with nothing between them.
- Service.NotificationMethodService.Create: requires the channel reference and its id to be present. It requires the notification reference and its id only when the channel exists, because the code reads them only after the channel lookup succeeds. In Java, a null reference on a path that reads it throws `NullPointerException`, and a null id makes the repository throw `IllegalArgumentException`. Neither runtime fault is modelled. `Backend.MappedRequestLookupKeys` shows that every valid request meets this precondition.
- Service.NotificationMethodService.UpdateById: the same precondition as `Create`, and only when the method exists. An absent method fails before any reference is read, whatever the references hold.
- The services take entities as values, and the caller's object after the call is given by the ghost `arg`. Aliasing between the caller's object and the stored row is not modelled: in the model, a later change to one never shows in the other.
- References between rows are stored as copied values. In the code they are `@ManyToOne` foreign keys (NotificationChannel.java:38-39, NotificationMethod.java:35-39), and `notificationChannels` is the inverse side of the channel's reference (NotificationModel.java:39-40). In the model, a later update of a referenced notification or channel does not show through the rows that refer to it, and a notification's channel list is whatever it was saved with.
- Logging and the Lombok-generated accessors, `equals` and `toString` are not modelled.
- `@NotBlank` follows the validator's `trim()`, which strips characters up to U+0020. It does not use `Character.isWhitespace`, so, for example, a string holding only U+2003 counts as not blank.
- The response bodies for channels and methods have no mapper in the code and are not modelled. `NotificationRepository` and `EntityNotFoundException` are not part of this model. The model uses the same repository shape for all three tables and represents the exception by `Outcome.NotFound`.
