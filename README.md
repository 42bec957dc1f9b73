# montydb error taxonomy

A Dafny model of `montydb/errors.py`, the exception module of montydb, a
client library that emulates MongoDB. The module declares two separate
exception families and one class with behaviour:

- `BSONError` (document encoding) with `InvalidDocument`, `InvalidId` and
  `DocumentTooLarge` below it;
- `MontyError` (database operations) with `ConfigurationError`,
  `OperationFailure`, `InvalidOperation`, `InvalidName`, `CollectionInvalid`,
  `WriteError`, `DuplicateKeyError` and `BulkWriteError` below it;
- `OperationFailure`, which stores an optional integer `code` and an optional
  opaque `details` payload, exposes both read-only, and answers `has_label`.
  The label "TemporaryTxnFailure" holds for the server codes 112
  (WriteConflict), 244 (TransactionAborted) and 251 (NoSuchTransaction).
- `BulkWriteError(results)` fixes the message to "batch op errors occurred"
  and the code to 65, and keeps `results` as its details.

`errors.dfy` holds two modules:

- `ErrorKinds` models the class hierarchy. `Kind` has one constructor per
  class. `Parent` gives each class's base class, with `None` for the builtin
  `Exception`. `IsA` is Python's `issubclass`: the reflexive-transitive
  closure of `Parent`. `Root` gives a class's topmost ancestor in this module.
  The lemmas prove that `IsA` is a partial order and that the two families
  are disjoint. They also prove which classes make up each family, and that
  the four marker classes carry no code.
- `Errors` models exception values. `Error<D>` records the class, the message
  and the two stored fields. `D` is the opaque type of the details payload.
  `Code`, `Details` and `HasLabel` are the `code` property, the `details`
  property and `has_label`. They are defined only on classes in the
  `OperationFailure` family, because the other classes do not have them.
  The three constructor functions follow the three constructor signatures
  that classes of the module have. Two are the `__init__` methods the module
  declares, for `OperationFailure` and `BulkWriteError`. The third is the
  constructor inherited from `Exception` by the classes outside the
  OperationFailure family. `WellFormed` is the invariant that every
  constructed value satisfies.

Two facts of the hierarchy shape the model. First, `BSONError` derives from
`Exception`, not from `MontyError` (montydb/errors.py:2, :17). So encoding
errors are not MontyErrors, and the two families share no ancestor inside
the module. Second, `ConfigurationError`, `InvalidOperation`, `InvalidName`
and `CollectionInvalid` derive from `MontyError` directly, not from
`OperationFailure` (montydb/errors.py:21, :50, :54, :59). So they have no
code and no details.

## Model

| member | source | states |
|---|---|---|
| `ErrorKinds.Parent` | montydb/errors.py:2-78 | Only BSONError and MontyError derive from `Exception`. Every other class has a base class in the module, one level closer to its root. |
| `ErrorKinds.IsA` | montydb/errors.py:2-78 | `issubclass` over the class statements: every class is a subclass of itself, and a proper ancestor is strictly higher in the hierarchy. |
| `ErrorKinds.Root` | montydb/errors.py:2-17 | Every class is below one of the two roots, BSONError or MontyError. |
| `ErrorKinds.IsAAntisymmetric` | montydb/errors.py:2-78 | Two classes that are subclasses of each other are the same class, so the hierarchy has no cycles. |
| `ErrorKinds.IsATransitive` | montydb/errors.py:2-78 | A subclass of a subclass of `c` is a subclass of `c`. |
| `ErrorKinds.IsARootIffRoot` | montydb/errors.py:2-17 | A class is a subclass of a given root exactly when that root is the class's `Root`. |
| `ErrorKinds.FamiliesAreDisjoint` | montydb/errors.py:2-17 | Every class is a BSONError or a MontyError, and never both. |
| `ErrorKinds.BSONFamily` | montydb/errors.py:2-66 | The BSONError subclasses are exactly BSONError, InvalidDocument, InvalidId and DocumentTooLarge. |
| `ErrorKinds.OperationFailureFamily` | montydb/errors.py:26-86 | The OperationFailure subclasses are exactly OperationFailure, WriteError, DuplicateKeyError and BulkWriteError. |
| `ErrorKinds.SubtypeChains` | montydb/errors.py:7-78 | DuplicateKeyError is-a WriteError is-a OperationFailure is-a MontyError. BulkWriteError is-a OperationFailure but not a WriteError. DocumentTooLarge is-a InvalidDocument is-a BSONError, and is not a MontyError. |
| `ErrorKinds.MarkersAreNotOperationFailures` | montydb/errors.py:21-61 | ConfigurationError, InvalidOperation, InvalidName and CollectionInvalid derive directly from MontyError. The second clause, that they are not OperationFailures, is a corollary of `OperationFailureFamily`. |
| `Errors.Error.CarriesCode` | montydb/errors.py:17-41 | `isinstance(e, OperationFailure)`, the classes that have `code`, `details` and `has_label`. Such a value is a MontyError and never a BSONError. |
| `Errors.Error.Code` | montydb/errors.py:35-37 | The `code` property returns the code stored at construction. For a well-formed BulkWriteError it is always 65. |
| `Errors.Error.Details` | montydb/errors.py:39-41 | The `details` property returns the payload stored at construction. |
| `Errors.Error.HasLabel` | montydb/errors.py:43-47 | `has_label` agrees with the label table that maps "TemporaryTxnFailure" to {112, 244, 251}. A label holds exactly when it is in the table and the stored code is among its codes. |
| `Errors.WellFormed` | montydb/errors.py:2-86 | The invariant every constructor establishes. Classes outside the OperationFailure family store no code or details, and a BulkWriteError has its fixed message and code 65. A value that stores a code or details is therefore an OperationFailure and a MontyError. |
| `Errors.NewError` | montydb/errors.py:2-66 | A class outside the OperationFailure family keeps its class and message. It has no code accessor and stores no code or details. |
| `Errors.NewOperationFailure` | montydb/errors.py:30-41 | `OperationFailure(error, code, details)` and the subclasses that inherit its constructor keep the message. The `code` and `details` accessors return exactly the arguments given, which are `None` when omitted. |
| `Errors.NewBulkWriteError` | montydb/errors.py:78-86 | For any `results`, including an empty batch and `None`, the value has message "batch op errors occurred", code 65 and details exactly `results`. |
| `Errors.TemporaryTxnFailureCodes` | montydb/errors.py:43-46 | `has_label("TemporaryTxnFailure")` is true exactly when the code is 112, 244 or 251. |
| `Errors.OtherLabelsNeverHold` | montydb/errors.py:43-47 | Every label other than "TemporaryTxnFailure" is false, whatever the code, including 112, 244 and 251. |
| `Errors.AbsentCodeHasNoLabel` | montydb/errors.py:30-47 | With no code, `has_label` is false for every label. |
| `Errors.BulkWriteErrorHasNoLabel` | montydb/errors.py:43-86 | A well-formed BulkWriteError has the code accessor and no label. In particular it is never "TemporaryTxnFailure", because its code is 65. |
| `Errors.Scenarios` | montydb/errors.py:30-86 | Code 112 is transient and code 99 is not. With no code, no label holds and `code` is `None`. A bulk error built from two results reports code 65 and those results unchanged, and one built from an empty batch or from `None` keeps it as its details. |

## Left out

- NewOperationFailure: the `error` argument can be any Python object (montydb/errors.py:30, :33). It is modelled as a string, as are the messages of all other classes.
- Raising and catching exceptions, tracebacks and `Exception.args` are Python runtime behaviour. The classes outside the OperationFailure family are modelled as built from one message, though `Exception` accepts any number of arguments.
- The name-mangled `__code` and `__details` attributes are modelled as fields of an immutable datatype. Nothing can update them, and Python's name mangling has no counterpart to model.
- The details payload and the bulk `results` are opaque and are the type parameter `D`. Their structure belongs to code that is not part of this model. Python's `None` is `Option.None` and any other object `v` is `Some(v)`, for `details` and for `results` alike.
- `code` is modelled as an optional integer. Python accepts any object there, and `in (112, 244, 251)` compares with `==`, so a value such as `112.0` would also match. Such values are not modelled.
- An omitted `code` or `details` argument and an explicit `None` are the same value in Python, and both are `None` in the model.
- Reading `code`, `details` or `has_label` on a class outside the OperationFailure family raises `AttributeError` in Python. The model excludes that call with a precondition.
- `BulkWriteError` overrides the constructor, so it cannot be built with `(error, code, details)`. `NewOperationFailure` therefore requires a kind other than `BulkWriteError`.
