/** The exception taxonomy of montydb (montydb/errors.py).

    Module ErrorKinds models the class hierarchy: one constructor of `Kind`
    per exception class, `Parent` for each class's base class, and `IsA`
    for Python's `issubclass`. Module Errors models exception values: the
    message every exception carries, the code and details an
    `OperationFailure` carries, and the `has_label` retry classification.
 */
module ErrorKinds {

  /** One constructor per exception class declared in montydb/errors.py. */
  datatype Kind =
    | BSONError
    | InvalidDocument
    | InvalidId
    | MontyError
    | ConfigurationError
    | OperationFailure
    | InvalidOperation
    | InvalidName
    | CollectionInvalid
    | DocumentTooLarge
    | WriteError
    | DuplicateKeyError
    | BulkWriteError

  datatype Option<+T> = None | Some(value: T)

  /** How many classes of this module lie between `k` and the builtin
      `Exception`; used only to show that walking up the hierarchy ends. */
  function Depth(k: Kind): nat
  {
    match k
    case BSONError | MontyError => 0
    case InvalidDocument | InvalidId => 1
    case ConfigurationError | OperationFailure | InvalidOperation => 1
    case InvalidName | CollectionInvalid => 1
    case DocumentTooLarge | WriteError | BulkWriteError => 2
    case DuplicateKeyError => 3
  }

  /** The base class named in each class statement; `None` stands for the
      builtin `Exception`, which is not part of this module. */
  function Parent(k: Kind): (r: Option<Kind>)
    ensures r.None? <==> k == BSONError || k == MontyError
    ensures r.Some? ==> Depth(r.value) + 1 == Depth(k)
  {
    match k
    case BSONError => None
    case InvalidDocument => Some(BSONError)
    case InvalidId => Some(BSONError)
    case MontyError => None
    case ConfigurationError => Some(MontyError)
    case OperationFailure => Some(MontyError)
    case InvalidOperation => Some(MontyError)
    case InvalidName => Some(MontyError)
    case CollectionInvalid => Some(MontyError)
    case DocumentTooLarge => Some(InvalidDocument)
    case WriteError => Some(OperationFailure)
    case DuplicateKeyError => Some(WriteError)
    case BulkWriteError => Some(OperationFailure)
  }

  /** `issubclass(k, a)`: `a` is `k` itself or one of its ancestors, so a
      proper ancestor is strictly higher in the hierarchy than `k`. */
  predicate IsA(k: Kind, a: Kind)
    ensures k == a ==> IsA(k, a)
    ensures IsA(k, a) && k != a ==> Depth(a) < Depth(k)
    decreases Depth(k)
  {
    k == a || (Parent(k).Some? && IsA(Parent(k).value, a))
  }

  /** The topmost class of this module above `k`. */
  function Root(k: Kind): (r: Kind)
    ensures r == BSONError || r == MontyError
    ensures IsA(k, r)
    decreases Depth(k)
  {
    match Parent(k)
    case None => k
    case Some(p) => Root(p)
  }

  /** The hierarchy has no cycles. */
  lemma IsAAntisymmetric(a: Kind, b: Kind)
    requires IsA(a, b) && IsA(b, a)
    ensures a == b
  {
  }

  /** A subclass of a subclass is a subclass. */
  lemma {:induction false} IsATransitive(a: Kind, b: Kind, c: Kind)
    requires IsA(a, b) && IsA(b, c)
    ensures IsA(a, c)
    decreases Depth(a)
  {
    if a != b {
      IsATransitive(Parent(a).value, b, c);
    }
  }

  /** A class is below a root exactly when that root is its own root: each
      class has one root. */
  lemma {:induction false} IsARootIffRoot(k: Kind, r: Kind)
    requires r == BSONError || r == MontyError
    ensures IsA(k, r) <==> Root(k) == r
    decreases Depth(k)
  {
    match Parent(k)
    case None =>
    case Some(p) =>
      IsARootIffRoot(p, r);
  }

  /** The two families share no class: BSON errors are not Monty errors,
      and every class is in one of the two. */
  lemma FamiliesAreDisjoint(k: Kind)
    ensures IsA(k, BSONError) <==> !IsA(k, MontyError)
  {
    IsARootIffRoot(k, BSONError);
    IsARootIffRoot(k, MontyError);
  }

  /** The BSON family is BSONError and the three classes below it. */
  lemma BSONFamily(k: Kind)
    ensures IsA(k, BSONError) <==> k in {BSONError, InvalidDocument, InvalidId, DocumentTooLarge}
  {
    match k
    case BSONError =>
    case InvalidDocument =>
    case InvalidId =>
    case DocumentTooLarge =>
    case _ =>
      FamiliesAreDisjoint(k);
  }

  /** Exactly four classes are operation failures, and so carry a code and
      details. */
  lemma OperationFailureFamily(k: Kind)
    ensures IsA(k, OperationFailure) <==> k in {OperationFailure, WriteError, DuplicateKeyError, BulkWriteError}
  {
    match k
    case OperationFailure =>
    case WriteError =>
    case DuplicateKeyError =>
    case BulkWriteError =>
    case _ =>
      if IsA(k, OperationFailure) {
        IsATransitive(k, OperationFailure, MontyError);
        FamiliesAreDisjoint(k);
      }
  }

  /** The subclass chains declared by the class statements. */
  lemma SubtypeChains()
    ensures IsA(DuplicateKeyError, WriteError)
    ensures IsA(WriteError, OperationFailure)
    ensures IsA(OperationFailure, MontyError)
    ensures IsA(DuplicateKeyError, MontyError)
    ensures IsA(BulkWriteError, OperationFailure)
    ensures IsA(DocumentTooLarge, InvalidDocument)
    ensures IsA(InvalidDocument, BSONError)
    ensures IsA(DocumentTooLarge, BSONError)
    ensures !IsA(BulkWriteError, WriteError)
    ensures !IsA(DocumentTooLarge, MontyError)
  {
  }

  /** The marker classes derive from MontyError directly and are not
      operation failures (the latter a corollary of OperationFailureFamily). */
  lemma MarkersAreNotOperationFailures(k: Kind)
    requires k in {ConfigurationError, InvalidOperation, InvalidName, CollectionInvalid}
    ensures Parent(k) == Some(MontyError)
    ensures IsA(k, MontyError) && !IsA(k, OperationFailure)
  {
    OperationFailureFamily(k);
  }
}

module Errors {
  import opened ErrorKinds

  const TEMPORARY_TXN_FAILURE: string := "TemporaryTxnFailure"

  /** Server error codes: WriteConflict, TransactionAborted, NoSuchTransaction. */
  const WRITE_CONFLICT: int := 112
  const TRANSACTION_ABORTED: int := 244
  const NO_SUCH_TRANSACTION: int := 251

  const BULK_WRITE_ERROR_MESSAGE: string := "batch op errors occurred"
  const BULK_WRITE_ERROR_CODE: int := 65

  /** The label table: each label recognised by `HasLabel` and the codes that
      carry it. */
  const LABEL_CODES: map<string, set<int>> :=
    map[TEMPORARY_TXN_FAILURE := {WRITE_CONFLICT, TRANSACTION_ABORTED, NO_SUCH_TRANSACTION}]

  /** An exception value of class `kind`. Only operation failures use the two
      stored fields; they are read through `Code` and `Details`, and nothing
      updates them after construction. `D` is the opaque details payload;
      Python's `None` is `Option.None`. */
  datatype Error<D> = Error(kind: Kind, message: string, storedCode: Option<int>, storedDetails: Option<D>)
  {
    /** `isinstance(self, OperationFailure)`: the class has the accessors.
        Such a class is a MontyError and never a BSONError. */
    predicate CarriesCode()
      ensures CarriesCode() ==> IsA(kind, MontyError) && !IsA(kind, BSONError)
    {
      IsA(kind, OperationFailure)
    }

    /** The `code` property: the code stored at construction, which for a
        well-formed bulk write error is always 65. */
    function Code(): (r: Option<int>)
      requires CarriesCode()
      ensures r == storedCode
      ensures WellFormed(this) && kind == BulkWriteError ==> r == Some(BULK_WRITE_ERROR_CODE)
    {
      storedCode
    }

    /** The `details` property: the payload stored at construction. */
    function Details(): (r: Option<D>)
      requires CarriesCode()
      ensures r == storedDetails
    {
      storedDetails
    }

    /** `has_label`: the inline test against the tuple (112, 244, 251) agrees
        with the label table, so a label holds exactly when it is in the
        table and the stored code is among its codes. */
    predicate HasLabel(name: string)
      requires CarriesCode()
      ensures HasLabel(name) <==>
        name in LABEL_CODES && storedCode.Some? && storedCode.value in LABEL_CODES[name]
    {
      if name == TEMPORARY_TXN_FAILURE then
        storedCode.Some? && storedCode.value in [WRITE_CONFLICT, TRANSACTION_ABORTED, NO_SUCH_TRANSACTION]
      else
        false
    }
  }

  /** What every value built by the constructors below satisfies: classes
      outside the OperationFailure family store no code or details, and a
      bulk write error has its fixed message and code. Hence a value that
      stores a code or details is an operation failure and a MontyError. */
  predicate WellFormed<D>(e: Error<D>)
    ensures WellFormed(e) && (e.storedCode.Some? || e.storedDetails.Some?) ==>
      e.CarriesCode() && IsA(e.kind, MontyError)
  {
    && (!IsA(e.kind, OperationFailure) ==> e.storedCode.None? && e.storedDetails.None?)
    && (e.kind == BulkWriteError ==>
          e.message == BULK_WRITE_ERROR_MESSAGE && e.storedCode == Some(BULK_WRITE_ERROR_CODE))
  }

  /** Constructing a class outside the OperationFailure family, which keeps
      the constructor inherited from `Exception`. */
  function NewError<D>(kind: Kind, message: string): (r: Error<D>)
    requires !IsA(kind, OperationFailure)
    ensures r.kind == kind && r.message == message
    ensures !r.CarriesCode() && WellFormed(r)
  {
    Error(kind, message, None, None)
  }

  /** `OperationFailure(error, code=None, details=None)`, also the
      constructor of WriteError and DuplicateKeyError, which inherit it.
      `None` stands both for an omitted argument and for an explicit `None`. */
  function NewOperationFailure<D>(kind: Kind, error: string, code: Option<int>, details: Option<D>): (r: Error<D>)
    requires IsA(kind, OperationFailure) && kind != BulkWriteError
    ensures r.kind == kind && r.message == error
    ensures r.CarriesCode() && r.Code() == code && r.Details() == details
    ensures WellFormed(r)
  {
    Error(kind, error, code, details)
  }

  /** `BulkWriteError(results)`: the message and code are fixed and the
      results become the details unchanged, whatever they hold, `None`
      included. */
  function NewBulkWriteError<D>(results: Option<D>): (r: Error<D>)
    ensures r.kind == BulkWriteError && r.message == BULK_WRITE_ERROR_MESSAGE
    ensures r.CarriesCode() && r.Code() == Some(BULK_WRITE_ERROR_CODE) && r.Details() == results
    ensures WellFormed(r)
  {
    Error(BulkWriteError, BULK_WRITE_ERROR_MESSAGE, Some(BULK_WRITE_ERROR_CODE), results)
  }

  /** "TemporaryTxnFailure" holds exactly for codes 112, 244 and 251. */
  lemma TemporaryTxnFailureCodes<D>(e: Error<D>)
    requires e.CarriesCode()
    ensures e.HasLabel(TEMPORARY_TXN_FAILURE) <==> e.Code() in {Some(112), Some(244), Some(251)}
  {
  }

  /** Any other label is false, whatever the code, the three transaction
      codes included. */
  lemma OtherLabelsNeverHold<D>(e: Error<D>, name: string)
    requires e.CarriesCode() && name != TEMPORARY_TXN_FAILURE
    ensures !e.HasLabel(name)
  {
  }

  /** Without a code no label holds. */
  lemma AbsentCodeHasNoLabel<D>(e: Error<D>, name: string)
    requires e.CarriesCode() && e.Code().None?
    ensures !e.HasLabel(name)
  {
  }

  /** A well-formed bulk write error is never transient: its code is 65. */
  lemma BulkWriteErrorHasNoLabel<D>(e: Error<D>, name: string)
    requires WellFormed(e) && e.kind == BulkWriteError
    ensures e.CarriesCode() && !e.HasLabel(name)
  {
  }

  /** Concrete examples: a transient code, a non-transient code, an absent
      code, a two-item bulk result, an empty bulk result and a `None` one. */
  lemma Scenarios()
    ensures NewOperationFailure<int>(OperationFailure, "conflict", Some(112), None).HasLabel(TEMPORARY_TXN_FAILURE)
    ensures !NewOperationFailure<int>(OperationFailure, "other", Some(99), None).HasLabel(TEMPORARY_TXN_FAILURE)
    ensures forall name :: !NewOperationFailure<int>(OperationFailure, "none", None, None).HasLabel(name)
    ensures NewOperationFailure<int>(DuplicateKeyError, "dup", None, None).Code() == None
    ensures var results := Some([(1, true), (2, false)]);
      NewBulkWriteError(results).Code() == Some(65) && NewBulkWriteError(results).Details() == results
    ensures NewBulkWriteError<seq<int>>(Some([])).Details() == Some([])
    ensures NewBulkWriteError<seq<int>>(None).Details() == None
  {
  }
}
