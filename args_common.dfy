/** Types shared by the three parts of the transactional test runner's
    argument language (crates/sui-transactional-test-runner/src/args.rs):
    the tokens the base value lexer produces, script-local object handles and
    the runner's errors. */
module ArgsCommon {
  import opened Bytes

  /** u64::MAX + 1. */
  const U64_LIMIT: nat := 0x1_0000_0000_0000_0000

  type U64 = x: int | 0 <= x < 0x1_0000_0000_0000_0000

  /** A script-local object handle.  `Known` names a fixed address;
      `Enumerated(i, j)` names an object the script itself created, by the
      two numbers written in `object(i, j)`. */
  datatype FakeID = Known(address: ObjectID) | Enumerated(i: U64, j: U64)

  predicate WellFormedId(id: FakeID)
  {
    id.Known? ==> |id.address| == 32
  }

  /** The kinds of `ValueToken` this core looks at; `OtherKind` stands for all
      the others (brackets, braces, typed numbers, strings, ...). */
  datatype Kind = IdentKind | NumberKind | LParenKind | RParenKind | CommaKind | AtSignKind | OtherKind

  /** A token of the base value grammar, with whitespace already dropped.  A
      `Number` carries the value its untyped numeral denotes. */
  datatype Token =
    | Ident(name: string)
    | Number(value: nat)
    | LParen
    | RParen
    | Comma
    | AtSign
    | Other(text: string)

  function KindOf(t: Token): Kind
  {
    match t
    case Ident(_) => IdentKind
    case Number(_) => NumberKind
    case LParen => LParenKind
    case RParen => RParenKind
    case Comma => CommaKind
    case AtSign => AtSignKind
    case Other(_) => OtherKind
  }

  /** The runner's `anyhow` errors, by cause.  `Fatal` stands for a `panic!`:
      an internal defect, never a recoverable failure. */
  datatype Error =
    | UnexpectedEnd
    | UnexpectedToken(expected: Kind, found: Kind)
    | ConditionFailed
    | InvalidNumber(bits: nat)
    | ObjectIdTooLarge
    | InvalidPolicy(name: string)
    | UnknownObject(handle: FakeID)
    | CouldNotLoadObject(id: ObjectID)
    | ObjVecNotInput
    | UnboundStagedPackage(package: string)
    | Fatal(message: string)
}
