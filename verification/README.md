# ServerException, modelled in Dafny

A model of `ServerException` from the `server-lib` HTTP server library.
It is an exception class used to represent errors thrown from API methods.
It carries:

- an HTTP status code;
- a map of errors to be returned to the client;
- a flag saying whether a message should be logged by the server.

A logged error also carries the message passed to its superclass, which
the server is to log.

The model has three files:

- `wrappers.dfy` (`Wrappers`): `Option`, standing for a Java value that may be `null`.
- `http_status.dfy` (`HttpStatus`): the five status codes as integer
  literals (`HttpURLConnection.HTTP_OK` is 200, and so on), plus the 2xx
  and 4xx status classes.
- `server_exception.dfy` (`ServerExceptions`):
  - the five static factories, each returning a `Builder` bound to its status code;
  - `Fault`, a model-only index naming the five factories, with `FactoryFor` choosing the factory;
  - `FaultOf`, the factory table read backwards (a model-only inverse);
  - the `ServerException` value and its two constructors, `ClientError` and `LoggedError`;
  - the accessors `HttpCode`, `Errors`, `ShouldLog` and `LogMessage`;
  - the lemmas about all of these.

`invalidRequest` answers with 200 on purpose, as its documentation says. The
model keeps the 200 and proves that it is the only factory whose code is in
the success class.

The Java constructor (ServerException.java:84-89) makes no check on the
log message, so `LoggedError` accepts the empty string and has no
precondition on `logMessage`. For every non-null message, the code keeps
one invariant, which the model states as `Valid`: a message is present
exactly when the exception is to be logged.

## Model

| member | source | states |
|---|---|---|
| `ServerExceptions.InvalidRequest` | src/main/java/uk/co/lukestevens/server/exceptions/ServerException.java:17-26 | the builder is bound to 200, a success-class status and not a client error, although it reports a request error |
| `ServerExceptions.BadRequest` | src/main/java/uk/co/lukestevens/server/exceptions/ServerException.java:28-37 | the builder is bound to 400, a client-error status |
| `ServerExceptions.Unauthorized` | src/main/java/uk/co/lukestevens/server/exceptions/ServerException.java:40-48 | the builder is bound to 401, a client-error status |
| `ServerExceptions.Forbidden` | src/main/java/uk/co/lukestevens/server/exceptions/ServerException.java:51-59 | the builder is bound to 403, a client-error status |
| `ServerExceptions.NotFound` | src/main/java/uk/co/lukestevens/server/exceptions/ServerException.java:62-69 | the builder is bound to 404, a client-error status |
| `ServerExceptions.FactoryCodesAre` | src/main/java/uk/co/lukestevens/server/exceptions/ServerException.java:24-69 | the set of codes the five factories produce is exactly {200, 400, 401, 403, 404} |
| `ServerExceptions.FactoryCodesDistinct` | src/main/java/uk/co/lukestevens/server/exceptions/ServerException.java:24-69 | two factories give the same status code if and only if they are the same factory |
| `ServerExceptions.FaultOfFactory` | src/main/java/uk/co/lukestevens/server/exceptions/ServerException.java:24-69 | reading the factory table backwards from a factory's code finds that factory's fault |
| `ServerExceptions.FactoryOfFault` | src/main/java/uk/co/lukestevens/server/exceptions/ServerException.java:24-69 | a code has a fault in the backwards table exactly when some factory produces it, and that fault's factory produces that code |
| `ServerExceptions.OnlyInvalidRequestSucceeds` | src/main/java/uk/co/lukestevens/server/exceptions/ServerException.java:17-69 | a factory's code is in the success class if and only if it is `invalidRequest`; every other factory's code is a client error |
| `ServerExceptions.AllFaultsComplete` | src/main/java/uk/co/lukestevens/server/exceptions/ServerException.java:24-69 | the fault list has five entries, names every fault, and names each one once |
| `ServerExceptions.ClientError` | src/main/java/uk/co/lukestevens/server/exceptions/ServerException.java:76-81 | the client-only constructor gives an exception that is not logged and has no message; it keeps the code and errors exactly as given |
| `ServerExceptions.LoggedError` | src/main/java/uk/co/lukestevens/server/exceptions/ServerException.java:83-89 | the logging constructor gives an exception that is logged; its message is the given log message, and it keeps the code and errors exactly as given |
| `ServerExceptions.ValidIffConstructed` | src/main/java/uk/co/lukestevens/server/exceptions/ServerException.java:72-89 | an exception has a message exactly when it is to be logged, if and only if one of the two constructors can produce it |
| `ServerExceptions.ConstructorsDisjoint` | src/main/java/uk/co/lukestevens/server/exceptions/ServerException.java:76-89 | no exception comes from both constructors |
| `ServerExceptions.AccessorsAfterConstruction` | src/main/java/uk/co/lukestevens/server/exceptions/ServerException.java:76-110 | rebuilding a constructed exception from its accessors gives it back unchanged, for both constructors |
| `ServerExceptions.ReconstructFromAccessors` | src/main/java/uk/co/lukestevens/server/exceptions/ServerException.java:72-110 | `getHttpCode`, `getErrors`, `shouldLog` and the message together determine a valid exception: rebuilding from them gives the same value |
| `ServerExceptions.ServerException.HttpCode` | src/main/java/uk/co/lukestevens/server/exceptions/ServerException.java:91-96 | `getHttpCode` returns the stored code and changes nothing. The `ensures` of `ClientError` and `LoggedError` pin it to the constructor's argument; `ReconstructFromAccessors` shows it is the exception's own code |
| `ServerExceptions.ServerException.Errors` | src/main/java/uk/co/lukestevens/server/exceptions/ServerException.java:98-103 | `getErrors` returns the stored field-error map and changes nothing. The `ensures` of `ClientError` and `LoggedError` pin it to the constructor's argument; `ReconstructFromAccessors` shows it is the exception's own map |
| `ServerExceptions.ServerException.ShouldLog` | src/main/java/uk/co/lukestevens/server/exceptions/ServerException.java:105-110 | `shouldLog` returns the stored flag and changes nothing. The `ensures` of `ClientError` pins it to false and that of `LoggedError` to true; `ReconstructFromAccessors` uses it to pick the constructor |
| `ServerExceptions.ServerException.LogMessage` | src/main/java/uk/co/lukestevens/server/exceptions/ServerException.java:84-89 | the inherited message: `ClientError` pins it to none and `LoggedError` to the given log message; `ReconstructFromAccessors` shows it completes the rebuild |

## Left out

- The builder's `withError`, `build` and `buildWithLog`: `ServerExceptionBuilder` is not part of this model. A factory's result is modelled only by the status code it fixes. How field errors are added and which constructor the builder calls is not checked against its code.
- `LoggedError` requires nothing of `logMessage` and accepts the empty string, because the Java constructor (ServerException.java:84-89) makes no check.
- `LoggedError`: a `null` log message is not modelled. Dafny strings cannot be null. In Java, `null` would give a logged exception whose message is `null`.
- `ValidIffConstructed`: covers only non-null log messages. A Java `null` log message would give a logged exception without a message, which `Valid` excludes.
- Superclass and throwable machinery: the `IOException` superclass, throwing and catching, and `serialVersionUID` have no logic to state. The message passed to `super` is kept as the `message` field.
- `getErrors` returns Java's mutable `Map` by reference, so a caller can alter it. Here `errors` is an immutable `map` value, so aliasing and later mutation are not modelled. A Java `Map` can also hold `null` keys and values, and its iteration order is whatever the caller's map gives (the order of fields in the client body). A Dafny `map` has neither, so neither is modelled.
- A `null` errors map is not modelled. Dafny maps cannot be null. In Java, either constructor accepts `null`, and `getErrors()` then returns `null`.
- Finality of fields: the three fields are `final`. A Dafny datatype value is immutable, and no function here returns a changed exception, so no lemma states this separately.
- Rendering the HTTP response and the logging subsystem are external collaborators that do I/O.
