/**
 * The records of the token demo: operations, their parameters and
 * categories, and the values a parameter map holds.
 */
module Types {
  import opened Wrappers
  import opened CommandTemplate

  /** The 29 operation types, one per CLI subcommand the demo shows. */
  datatype OperationType =
    | CreateMint | ShowMint | CreateAccount | ShowAccount | Mint | Transfer | Burn
    | Approve | Revoke | FreezeAccount | ThawAccount | Balance | Supply | Accounts
    | Mints | AmountToUi | UiToAmount | CreateMultisig | MultisigSign | MultisigExecute
    | MultisigShow | TransferChecked | ApproveChecked | MintToChecked | BurnChecked
    | SetAuthority | CloseAccount | BatchTransfer | BatchMint

  /** The string literal of each operation type. */
  function TypeName(t: OperationType): string {
    match t
    case CreateMint => "create-mint"
    case ShowMint => "show-mint"
    case CreateAccount => "create-account"
    case ShowAccount => "show-account"
    case Mint => "mint"
    case Transfer => "transfer"
    case Burn => "burn"
    case Approve => "approve"
    case Revoke => "revoke"
    case FreezeAccount => "freeze-account"
    case ThawAccount => "thaw-account"
    case Balance => "balance"
    case Supply => "supply"
    case Accounts => "accounts"
    case Mints => "mints"
    case AmountToUi => "amount-to-ui"
    case UiToAmount => "ui-to-amount"
    case CreateMultisig => "create-multisig"
    case MultisigSign => "multisig-sign"
    case MultisigExecute => "multisig-execute"
    case MultisigShow => "multisig-show"
    case TransferChecked => "transfer-checked"
    case ApproveChecked => "approve-checked"
    case MintToChecked => "mint-to-checked"
    case BurnChecked => "burn-checked"
    case SetAuthority => "set-authority"
    case CloseAccount => "close-account"
    case BatchTransfer => "batch-transfer"
    case BatchMint => "batch-mint"
  }

  /**
   * The operation type a string names, if any: the inverse of `TypeName`.
   * The literals differ in their length, first character or third character
   * from the end, so those pick the one candidate to compare with.
   */
  function TypeOfName(name: string): (r: Option<OperationType>)
    ensures r.Some? ==> TypeName(r.value) == name
  {
    var candidate := if |name| < 3 then None else match (|name|, name[0], name[|name| - 3])
      case (11, 'c', 'i') => Some(CreateMint)
      case (9, 's', 'i') => Some(ShowMint)
      case (14, 'c', 'u') => Some(CreateAccount)
      case (12, 's', 'u') => Some(ShowAccount)
      case (4, 'm', 'i') => Some(Mint)
      case (8, 't', 'f') => Some(Transfer)
      case (4, 'b', 'u') => Some(Burn)
      case (7, 'a', 'o') => Some(Approve)
      case (6, 'r', 'o') => Some(Revoke)
      case (14, 'f', 'u') => Some(FreezeAccount)
      case (12, 't', 'u') => Some(ThawAccount)
      case (7, 'b', 'n') => Some(Balance)
      case (6, 's', 'p') => Some(Supply)
      case (8, 'a', 'n') => Some(Accounts)
      case (5, 'm', 'n') => Some(Mints)
      case (12, 'a', '-') => Some(AmountToUi)
      case (12, 'u', 'u') => Some(UiToAmount)
      case (15, 'c', 's') => Some(CreateMultisig)
      case (13, 'm', 'i') => Some(MultisigSign)
      case (16, 'm', 'u') => Some(MultisigExecute)
      case (13, 'm', 'h') => Some(MultisigShow)
      case (16, 't', 'k') => Some(TransferChecked)
      case (15, 'a', 'k') => Some(ApproveChecked)
      case (15, 'm', 'k') => Some(MintToChecked)
      case (12, 'b', 'k') => Some(BurnChecked)
      case (13, 's', 'i') => Some(SetAuthority)
      case (13, 'c', 'u') => Some(CloseAccount)
      case (14, 'b', 'f') => Some(BatchTransfer)
      case (10, 'b', 'i') => Some(BatchMint)
    case _ => None;
    if candidate.Some? && TypeName(candidate.value) == name then candidate else None
  }

  /** Every operation type is read back from its literal. */
  lemma TypeNameRoundTrip(t: OperationType)
    ensures TypeOfName(TypeName(t)) == Some(t)
  {
    if t.CreateMint? || t.ShowMint? || t.CreateAccount? || t.ShowAccount? || t.Mint? {
      TypeNameRoundTrip0(t);
    } else if t.Transfer? || t.Burn? || t.Approve? || t.Revoke? || t.FreezeAccount? {
      TypeNameRoundTrip1(t);
    } else if t.ThawAccount? || t.Balance? || t.Supply? || t.Accounts? || t.Mints? {
      TypeNameRoundTrip2(t);
    } else if t.AmountToUi? || t.UiToAmount? || t.CreateMultisig? || t.MultisigSign? || t.MultisigExecute? {
      TypeNameRoundTrip3(t);
    } else if t.MultisigShow? || t.TransferChecked? || t.ApproveChecked? || t.MintToChecked? || t.BurnChecked? {
      TypeNameRoundTrip4(t);
    } else {
      TypeNameRoundTrip5(t);
    }
  }

  lemma TypeNameRoundTrip0(t: OperationType)
    requires t.CreateMint? || t.ShowMint? || t.CreateAccount? || t.ShowAccount? || t.Mint?
    ensures TypeOfName(TypeName(t)) == Some(t)
  {
  }

  lemma TypeNameRoundTrip1(t: OperationType)
    requires t.Transfer? || t.Burn? || t.Approve? || t.Revoke? || t.FreezeAccount?
    ensures TypeOfName(TypeName(t)) == Some(t)
  {
  }

  lemma TypeNameRoundTrip2(t: OperationType)
    requires t.ThawAccount? || t.Balance? || t.Supply? || t.Accounts? || t.Mints?
    ensures TypeOfName(TypeName(t)) == Some(t)
  {
  }

  lemma TypeNameRoundTrip3(t: OperationType)
    requires t.AmountToUi? || t.UiToAmount? || t.CreateMultisig? || t.MultisigSign? || t.MultisigExecute?
    ensures TypeOfName(TypeName(t)) == Some(t)
  {
  }

  lemma TypeNameRoundTrip4(t: OperationType)
    requires t.MultisigShow? || t.TransferChecked? || t.ApproveChecked? || t.MintToChecked? || t.BurnChecked?
    ensures TypeOfName(TypeName(t)) == Some(t)
  {
  }

  lemma TypeNameRoundTrip5(t: OperationType)
    requires t.SetAuthority? || t.CloseAccount? || t.BatchTransfer? || t.BatchMint?
    ensures TypeOfName(TypeName(t)) == Some(t)
  {
  }

  /** Distinct operation types have distinct literals. */
  lemma TypeNameInjective(s: OperationType, t: OperationType)
    ensures TypeName(s) == TypeName(t) <==> s == t
  {
    TypeNameRoundTrip(s);
    TypeNameRoundTrip(t);
  }

  datatype Category = Basic | Advanced | Multisig | Utilities | BatchOperations

  /** The string literal of each category. */
  function CategoryName(c: Category): string {
    match c
    case Basic => "basic"
    case Advanced => "advanced"
    case Multisig => "multisig"
    case Utilities => "utilities"
    case BatchOperations => "batch-operations"
  }

  /** Distinct categories have distinct literals. */
  lemma CategoryNameInjective(c: Category, d: Category)
    ensures CategoryName(c) == CategoryName(d) <==> c == d
  {
  }

  /** The declared type of a parameter, which decides how its value is rendered and checked. */
  datatype ParamKind = StringKind | NumberKind | BooleanKind | FileKind

  /** Optional bounds for numbers and a regular expression for strings. */
  datatype Validation = Validation(min: Option<int>, max: Option<int>, pattern: Option<string>)

  /** A value in a parameter map. `Absent` stands for both `undefined` and `null`; `NaN` is the number NaN. */
  datatype Value = Absent | Str(s: string) | Num(n: int) | NaN | Bool(b: bool)

  /**
   * A declared parameter (`TokenParameter`), with the fields the engine
   * reads. Its description and placeholder are display text, held in the
   * operation's `Listing`.
   */
  datatype Parameter = Parameter(
    name: string,
    kind: ParamKind,
    required: bool,
    defaultValue: Option<Value>,
    validation: Option<Validation>)

  /**
   * An operation (`TokenOperation`), with the fields the engine and the
   * lookups read. `command` holds the command template as pieces; its text
   * (`Text(command)`) is the string the source stores. The title,
   * description and example are display text, held in a `Listing`.
   */
  datatype Operation = Operation(
    id: string,
    opType: OperationType,
    command: Template,
    category: Category,
    parameters: seq<Parameter>)

  /** The names of `ps`, in declaration order. */
  function ParamNames(ps: seq<Parameter>): (names: seq<string>)
    ensures |names| == |ps| && forall i :: 0 <= i < |ps| ==> names[i] == ps[i].name
  {
    if |ps| == 0 then [] else [ps[0].name] + ParamNames(ps[1..])
  }

  /** No two parameters share a name. */
  predicate DistinctNames(ps: seq<Parameter>) {
    forall i, j :: 0 <= i < j < |ps| ==> ps[i].name != ps[j].name
  }

  /** Distinct names in the name list are distinct names of the parameters. */
  lemma DistinctParamNames(ps: seq<Parameter>)
    requires Distinct(ParamNames(ps))
    ensures DistinctNames(ps)
  {
    var names := ParamNames(ps);
    forall i, j | 0 <= i < j < |ps| ensures ps[i].name != ps[j].name {
      assert names[i] == ps[i].name && names[j] == ps[j].name;
      assert names[i] != names[j];
    }
  }

  /** The display text of a parameter. */
  datatype ParamText = ParamText(description: string, placeholder: Option<string>)

  /**
   * The display text of an operation: title, description, example command,
   * and the display text of its parameters, in declaration order.
   */
  datatype Listing = Listing(
    title: string,
    description: string,
    example: string,
    parameters: seq<ParamText>)

  /** A parameter map: the value stored under each name (a missing key reads as `undefined`). */
  type ParamMap = map<string, Value>

  /** `parameters[name]`. */
  function Lookup(vals: ParamMap, name: string): (v: Value)
    ensures name !in vals ==> v == Absent
    ensures name in vals ==> v == vals[name]
  {
    if name in vals then vals[name] else Absent
  }

  /** `value === undefined || value === null || value === ''`. */
  predicate IsEmpty(v: Value) {
    v == Absent || v == Str("")
  }
}
