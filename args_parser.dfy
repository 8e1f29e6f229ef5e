/** The symbolic argument language of the transactional test runner: the
    forms `object(N)`, `object(I, J)`, `receiving(...)`, an optional `@V`
    version pin, and `digest(NAME)`, recognised inside the base value
    grammar's token stream.

    The parser is a `Parser` object whose token stream the `Parse...` methods
    consume step by step, as `MoveCLParser` is advanced in the source.  Each
    method is proved against a function on token sequences (`ObjectForm`,
    `DigestForm`, `ValueForm`) that returns the result together with the
    tokens left over; the grammar's properties are lemmas about those
    functions. */
module ArgsParser {
  import opened Results
  import opened Bytes
  import opened ArgsCommon

  /** `SuiExtraValueArgs`: what the three extra forms parse to. */
  datatype ExtraArg =
    | ExtraObject(id: FakeID, version: Option<U64>)
    | ExtraDigest(package: string)
    | ExtraReceiving(id: FakeID, version: Option<U64>)

  /** The outcome of a parsing step and the tokens it leaves unread. */
  datatype Step<T> = Step(result: Result<T, Error>, rest: seq<Token>)

  function Failed<T, U>(s: Step<T>): Step<U>
    requires s.result.Err?
  {
    Step(Err(s.result.error), s.rest)
  }

  // ---------------------------------------------------------------------
  // The grammar, as functions on token sequences

  /** `advance(k)`: takes the next token, which must have kind `k`.  A token
      of another kind is consumed as well. */
  function Expect(ts: seq<Token>, k: Kind): (s: Step<Token>)
    ensures s.result.Ok? <==> ts != [] && KindOf(ts[0]) == k
    ensures s.result.Ok? ==> s.result.value == ts[0]
    ensures s.rest == if ts == [] then [] else ts[1..]
  {
    if ts == [] then Step(Err(UnexpectedEnd), [])
    else if KindOf(ts[0]) == k then Step(Ok(ts[0]), ts[1..])
    else Step(Err(UnexpectedToken(k, KindOf(ts[0]))), ts[1..])
  }

  /** `peek_tok() == Some(k)`. */
  predicate NextIs(ts: seq<Token>, k: Kind)
  {
    ts != [] && KindOf(ts[0]) == k
  }

  /** `parse_u256` of a numeral denoting `n`. */
  function U256Literal(n: nat): (r: Result<nat, Error>)
    ensures r.Ok? <==> n < Pow256(32)
    ensures r.Ok? ==> r.value == n
  {
    if n < Pow256(32) then Ok(n) else Err(InvalidNumber(256))
  }

  /** `parse_u64` of a numeral denoting `n`. */
  function U64Literal(n: nat): (r: Result<U64, Error>)
    ensures r.Ok? <==> n < U64_LIMIT
    ensures r.Ok? ==> r.value == n
  {
    if n < U64_LIMIT then Ok(n) else Err(InvalidNumber(64))
  }

  /** The handle that follows the first number `i` of `object(i ...`: with a
      comma, an enumerated handle; without, the address whose big-endian
      encoding is `i`. */
  function HandleTail(ts: seq<Token>, i: nat): Step<FakeID>
    requires i < Pow256(32)
  {
    if NextIs(ts, CommaKind) then
      var s := Expect(ts[1..], NumberKind);
      if s.result.Err? then Failed(s)
      else
        var j := U64Literal(s.result.value.value);
        if j.Err? then Step(Err(j.error), s.rest)
        else if i >= U64_LIMIT then Step(Err(ObjectIdTooLarge), s.rest)
        else Step(Ok(Enumerated(i, j.value)), s.rest)
    else
      Step(Ok(Known(BigEndian32(i))), ts)
  }

  /** The optional `@V` after the closing parenthesis. */
  function VersionSuffix(ts: seq<Token>): Step<Option<U64>>
  {
    if NextIs(ts, AtSignKind) then
      var s := Expect(ts[1..], NumberKind);
      if s.result.Err? then Failed(s)
      else
        var v := U64Literal(s.result.value.value);
        if v.Err? then Step(Err(v.error), s.rest)
        else Step(Ok(Some(v.value)), s.rest)
    else
      Step(Ok(None), ts)
  }

  /** The handle between the parentheses: a 256-bit number, then the rest
      of the handle. */
  function HandleForm(ts: seq<Token>): Step<FakeID>
  {
    var s := Expect(ts, NumberKind);
    if s.result.Err? then Failed(s)
    else
      var i := U256Literal(s.result.value.value);
      if i.Err? then Step(Err(i.error), s.rest)
      else HandleTail(s.rest, i.value)
  }

  /** The closing parenthesis and the optional pin. */
  function CloseForm(ts: seq<Token>): Step<Option<U64>>
  {
    var s := Expect(ts, RParenKind);
    if s.result.Err? then Failed(s)
    else VersionSuffix(s.rest)
  }

  /** `parse_receiving_or_object_value(parser, ident)`. */
  function ObjectForm(ts: seq<Token>, ident: string): Step<(FakeID, Option<U64>)>
  {
    var s0 := Expect(ts, IdentKind);
    if s0.result.Err? then Failed(s0)
    else if s0.result.value.name != ident then Step(Err(ConditionFailed), s0.rest)
    else
      var s1 := Expect(s0.rest, LParenKind);
      if s1.result.Err? then Failed(s1)
      else
        var h := HandleForm(s1.rest);
        if h.result.Err? then Failed(h)
        else
          var v := CloseForm(h.rest);
          if v.result.Err? then Failed(v)
          else Step(Ok((h.result.value, v.result.value)), v.rest)
  }

  /** `parse_object_value`. */
  function ObjectValue(ts: seq<Token>): Step<ExtraArg>
  {
    var s := ObjectForm(ts, "object");
    if s.result.Err? then Failed(s)
    else Step(Ok(ExtraObject(s.result.value.0, s.result.value.1)), s.rest)
  }

  /** `parse_receiving_value`. */
  function ReceivingValue(ts: seq<Token>): Step<ExtraArg>
  {
    var s := ObjectForm(ts, "receiving");
    if s.result.Err? then Failed(s)
    else Step(Ok(ExtraReceiving(s.result.value.0, s.result.value.1)), s.rest)
  }

  /** `parse_digest_value`. */
  function DigestForm(ts: seq<Token>): Step<ExtraArg>
  {
    var s0 := Expect(ts, IdentKind);
    if s0.result.Err? then Failed(s0)
    else if s0.result.value.name != "digest" then Step(Err(ConditionFailed), s0.rest)
    else
      var s1 := Expect(s0.rest, LParenKind);
      if s1.result.Err? then Failed(s1)
      else
        var s2 := Expect(s1.rest, IdentKind);
        if s2.result.Err? then Failed(s2)
        else
          var s3 := Expect(s2.rest, RParenKind);
          if s3.result.Err? then Failed(s3)
          else Step(Ok(ExtraDigest(s2.result.value.name)), s3.rest)
  }

  /** The identifiers that introduce one of the extra forms. */
  predicate Claims(ts: seq<Token>)
  {
    ts != [] && ts[0].Ident? && ts[0].name in {"object", "digest", "receiving"}
  }

  /** `parse_value`: `None` hands the stream back to the base grammar. */
  function ValueForm(ts: seq<Token>): (r: Option<Step<ExtraArg>>)
    ensures r.None? <==> !Claims(ts)
    ensures Claims(ts) && ts[0].name == "object" ==> r == Some(ObjectValue(ts))
    ensures Claims(ts) && ts[0].name == "receiving" ==> r == Some(ReceivingValue(ts))
    ensures Claims(ts) && ts[0].name == "digest" ==> r == Some(DigestForm(ts))
  {
    if ts == [] then None
    else match ts[0]
      case Ident("object") => Some(ObjectValue(ts))
      case Ident("digest") => Some(DigestForm(ts))
      case Ident("receiving") => Some(ReceivingValue(ts))
      case _ => None
  }

  // ---------------------------------------------------------------------
  // The surface syntax each parse result comes from

  function HandleTokens(id: FakeID): seq<Token>
  {
    match id
    case Known(a) => [Number(BeValue(a))]
    case Enumerated(i, j) => [Number(i), Comma, Number(j)]
  }

  function VersionTokens(v: Option<U64>): seq<Token>
  {
    if v.Some? then [AtSign, Number(v.value)] else []
  }

  /** The tokens of `ident(handle)` or `ident(handle)@v`. */
  function Render(ident: string, id: FakeID, v: Option<U64>): seq<Token>
  {
    [Ident(ident), LParen] + HandleTokens(id) + [RParen] + VersionTokens(v)
  }

  /** Without a pin, the next token must not be `@`, or it would be read as
      one. */
  predicate EndsForm(v: Option<U64>, rest: seq<Token>)
  {
    v.None? ==> !NextIs(rest, AtSignKind)
  }

  // ---------------------------------------------------------------------
  // Properties of the grammar

  lemma VersionSuffixRoundTrip(v: Option<U64>, rest: seq<Token>)
    requires EndsForm(v, rest)
    ensures VersionSuffix(VersionTokens(v) + rest) == Step(Ok(v), rest)
  {
    if v.Some? {
      assert (VersionTokens(v) + rest)[1..] == [Number(v.value)] + rest;
      assert ([Number(v.value)] + rest)[1..] == rest;
    }
  }

  lemma VersionSuffixComplete(ts: seq<Token>)
    requires VersionSuffix(ts).result.Ok?
    ensures var s := VersionSuffix(ts);
      EndsForm(s.result.value, s.rest) && ts == VersionTokens(s.result.value) + s.rest
  {
    if NextIs(ts, AtSignKind) {
      assert ts == [ts[0], ts[1]] + ts[1..][1..];
    }
  }

  lemma HandleRoundTrip(id: FakeID, rest: seq<Token>)
    requires WellFormedId(id) && !NextIs(rest, CommaKind)
    ensures HandleForm(HandleTokens(id) + rest) == Step(Ok(id), rest)
  {
    var ts := HandleTokens(id) + rest;
    match id {
      case Known(a) =>
        BigEndian32Decodes(a);
        assert ts[1..] == rest;
      case Enumerated(i, j) =>
        assert ts[1..] == [Comma, Number(j)] + rest;
        assert ts[1..][1..] == [Number(j)] + rest;
        assert ([Number(j)] + rest)[1..] == rest;
    }
  }

  lemma HandleComplete(ts: seq<Token>)
    requires HandleForm(ts).result.Ok?
    ensures var s := HandleForm(ts);
      var id := s.result.value;
      WellFormedId(id) && (id.Known? ==> !NextIs(s.rest, CommaKind))
      && ts == HandleTokens(id) + s.rest
  {
    var n := ts[0].value;
    var t := ts[1..];
    if NextIs(t, CommaKind) {
      assert ts == [ts[0], t[0], t[1]] + t[1..][1..];
    } else {
      BigEndian32Encodes(n);
    }
  }

  lemma CloseRoundTrip(v: Option<U64>, rest: seq<Token>)
    requires EndsForm(v, rest)
    ensures CloseForm([RParen] + VersionTokens(v) + rest) == Step(Ok(v), rest)
  {
    assert ([RParen] + VersionTokens(v) + rest)[1..] == VersionTokens(v) + rest;
    VersionSuffixRoundTrip(v, rest);
  }

  lemma CloseComplete(ts: seq<Token>)
    requires CloseForm(ts).result.Ok?
    ensures var s := CloseForm(ts);
      EndsForm(s.result.value, s.rest) && ts == [RParen] + VersionTokens(s.result.value) + s.rest
  {
    VersionSuffixComplete(ts[1..]);
  }

  /** `ObjectForm` after a matching identifier and the opening
      parenthesis. */
  lemma ObjectFormOpened(ident: string, t: seq<Token>)
    ensures var h := HandleForm(t);
      ObjectForm([Ident(ident), LParen] + t, ident) ==
        if h.result.Err? then Failed(h)
        else
          var v := CloseForm(h.rest);
          if v.result.Err? then Failed(v)
          else Step(Ok((h.result.value, v.result.value)), v.rest)
  {
    var ts := [Ident(ident), LParen] + t;
    assert ts[1..][1..] == t;
  }

  lemma RenderSplits(ident: string, id: FakeID, v: Option<U64>, rest: seq<Token>)
    ensures Render(ident, id, v) + rest
            == [Ident(ident), LParen] + (HandleTokens(id) + ([RParen] + VersionTokens(v) + rest))
  {
  }

  lemma ObjectFormOfParts(ident: string, t: seq<Token>, id: FakeID, c: seq<Token>, v: Option<U64>, rest: seq<Token>)
    requires HandleForm(t) == Step(Ok(id), c) && CloseForm(c) == Step(Ok(v), rest)
    ensures ObjectForm([Ident(ident), LParen] + t, ident) == Step(Ok((id, v)), rest)
  {
    ObjectFormOpened(ident, t);
  }

  /** Every handle and pin, written out, parses back to itself, leaving the
      tokens after it untouched. */
  lemma ObjectFormRoundTrip(ident: string, id: FakeID, v: Option<U64>, rest: seq<Token>)
    requires WellFormedId(id) && EndsForm(v, rest)
    ensures ObjectForm(Render(ident, id, v) + rest, ident) == Step(Ok((id, v)), rest)
  {
    var close := [RParen] + VersionTokens(v) + rest;
    RenderSplits(ident, id, v, rest);
    HandleRoundTrip(id, close);
    CloseRoundTrip(v, rest);
    ObjectFormOfParts(ident, HandleTokens(id) + close, id, close, v, rest);
  }

  /** Conversely, a successful parse consumed exactly the written-out form of
      its result. */
  lemma ObjectFormComplete(ts: seq<Token>, ident: string)
    requires ObjectForm(ts, ident).result.Ok?
    ensures var s := ObjectForm(ts, ident);
      var (id, v) := s.result.value;
      WellFormedId(id) && EndsForm(v, s.rest) && ts == Render(ident, id, v) + s.rest
  {
    var s := ObjectForm(ts, ident);
    var t := ts[1..][1..];
    assert ts == [Ident(ident), LParen] + t;
    ObjectFormOpened(ident, t);
    var h := HandleForm(t);
    HandleComplete(t);
    var c := CloseForm(h.rest);
    CloseComplete(h.rest);
    assert s == Step(Ok((h.result.value, c.result.value)), c.rest);
    RenderSplits(ident, h.result.value, c.result.value, c.rest);
  }

  /** `object(I, J)` with `I` above u64::MAX is refused, whatever follows. */
  lemma EnumeratedRequiresU64(ident: string, i: nat, j: nat, rest: seq<Token>)
    requires U64_LIMIT <= i < Pow256(32) && j < U64_LIMIT
    ensures ObjectForm([Ident(ident), LParen, Number(i), Comma, Number(j)] + rest, ident)
            == Step(Err(ObjectIdTooLarge), rest)
  {
    var ts := [Ident(ident), LParen, Number(i), Comma, Number(j)] + rest;
    assert ts[1..][1..][1..] == [Comma, Number(j)] + rest;
    assert ts[1..][1..][1..][1..] == [Number(j)] + rest;
    assert ([Number(j)] + rest)[1..] == rest;
  }

  /** `object(N)` names the address whose 32 big-endian bytes encode `N`. */
  lemma KnownIsBigEndian(ident: string, n: nat, rest: seq<Token>)
    requires n < Pow256(32) && !NextIs(rest, AtSignKind)
    ensures var s := ObjectForm([Ident(ident), LParen, Number(n), RParen] + rest, ident);
      s == Step(Ok((Known(BigEndian32(n)), None)), rest)
      && |BigEndian32(n)| == 32 && BeValue(BigEndian32(n)) == n
  {
    var ts := [Ident(ident), LParen, Number(n), RParen] + rest;
    assert ts[1..][1..][1..] == [RParen] + rest;
    assert ([RParen] + rest)[1..] == rest;
    BigEndian32Encodes(n);
  }

  /** Both forms follow one grammar and differ only in the leading
      identifier. */
  lemma ReceivingSharesObjectGrammar(tail: seq<Token>)
    ensures ObjectForm([Ident("object")] + tail, "object")
            == ObjectForm([Ident("receiving")] + tail, "receiving")
  {
    assert ([Ident("object")] + tail)[1..] == tail;
    assert ([Ident("receiving")] + tail)[1..] == tail;
  }

  /** A leading identifier other than the expected one is refused. */
  lemma IdentifierMustMatch(ident: string, other: string, tail: seq<Token>)
    requires other != ident
    ensures ObjectForm([Ident(other)] + tail, ident) == Step(Err(ConditionFailed), tail)
  {
    assert ([Ident(other)] + tail)[1..] == tail;
  }

  lemma DigestRoundTrip(name: string, rest: seq<Token>)
    ensures DigestForm([Ident("digest"), LParen, Ident(name), RParen] + rest)
            == Step(Ok(ExtraDigest(name)), rest)
  {
    var ts := [Ident("digest"), LParen, Ident(name), RParen] + rest;
    assert ts[1..][1..] == [Ident(name), RParen] + rest;
    assert ts[1..][1..][1..][1..] == rest;
  }

  lemma DigestComplete(ts: seq<Token>)
    requires DigestForm(ts).result.Ok?
    ensures var s := DigestForm(ts);
      s.result.value.ExtraDigest?
      && ts == [Ident("digest"), LParen, Ident(s.result.value.package), RParen] + s.rest
  {
    var s := DigestForm(ts);
    assert ts == [ts[0], ts[1], ts[2], ts[3]] + ts[1..][1..][1..][1..];
  }

  // ---------------------------------------------------------------------
  // The parser object

  /** `MoveCLParser`: the unread tokens of one value, whitespace removed. */
  class Parser {
    var tokens: seq<Token>

    constructor (ts: seq<Token>)
      ensures tokens == ts
    {
      tokens := ts;
    }

    /** `peek_tok`. */
    method PeekKind() returns (k: Option<Kind>)
      ensures k.Some? <==> tokens != []
      ensures k.Some? ==> k.value == KindOf(tokens[0])
    {
      k := if tokens == [] then None else Some(KindOf(tokens[0]));
    }

    /** `advance`. */
    method Advance(k: Kind) returns (r: Result<Token, Error>)
      modifies this
      ensures Step(r, tokens) == Expect(old(tokens), k)
    {
      if tokens == [] {
        return Err(UnexpectedEnd);
      }
      var t := tokens[0];
      tokens := tokens[1..];
      if KindOf(t) == k {
        r := Ok(t);
      } else {
        r := Err(UnexpectedToken(k, KindOf(t)));
      }
    }

    /** The handle between the parentheses of `object(...)`. */
    method ParseHandle() returns (r: Result<FakeID, Error>)
      modifies this
      ensures Step(r, tokens) == HandleForm(old(tokens))
    {
      var iTok :- Advance(NumberKind);
      var i :- U256Literal(iTok.value);
      ghost var afterI := tokens;
      var next := PeekKind();
      if next == Some(CommaKind) {
        var _ := Advance(CommaKind);
        var jTok :- Advance(NumberKind);
        var j :- U64Literal(jTok.value);
        if i >= U64_LIMIT {
          return Err(ObjectIdTooLarge);
        }
        r := Ok(Enumerated(i, j));
      } else {
        var address := AddressFromU256(i);
        r := Ok(Known(address));
      }
      assert HandleTail(afterI, i) == Step(r, tokens);
    }

    /** The optional `@V` after the closing parenthesis. */
    method ParseVersion() returns (r: Result<Option<U64>, Error>)
      modifies this
      ensures Step(r, tokens) == VersionSuffix(old(tokens))
    {
      var next := PeekKind();
      if next == Some(AtSignKind) {
        var _ := Advance(AtSignKind);
        var vTok :- Advance(NumberKind);
        var v :- U64Literal(vTok.value);
        r := Ok(Some(v));
      } else {
        r := Ok(None);
      }
    }

    method ParseReceivingOrObjectValue(ident: string) returns (r: Result<(FakeID, Option<U64>), Error>)
      modifies this
      ensures Step(r, tokens) == ObjectForm(old(tokens), ident)
    {
      var contents :- Advance(IdentKind);
      if contents.name != ident {
        return Err(ConditionFailed);
      }
      var _ :- Advance(LParenKind);
      var fakeId :- ParseHandle();
      ghost var afterId := tokens;
      var _ :- Advance(RParenKind);
      var version :- ParseVersion();
      assert CloseForm(afterId) == Step(Ok(version), tokens);
      r := Ok((fakeId, version));
    }

    method ParseObjectValue() returns (r: Result<ExtraArg, Error>)
      modifies this
      ensures Step(r, tokens) == ObjectValue(old(tokens))
    {
      var handle :- ParseReceivingOrObjectValue("object");
      r := Ok(ExtraObject(handle.0, handle.1));
    }

    method ParseReceivingValue() returns (r: Result<ExtraArg, Error>)
      modifies this
      ensures Step(r, tokens) == ReceivingValue(old(tokens))
    {
      var handle :- ParseReceivingOrObjectValue("receiving");
      r := Ok(ExtraReceiving(handle.0, handle.1));
    }

    method ParseDigestValue() returns (r: Result<ExtraArg, Error>)
      modifies this
      ensures Step(r, tokens) == DigestForm(old(tokens))
    {
      var contents :- Advance(IdentKind);
      if contents.name != "digest" {
        return Err(ConditionFailed);
      }
      var _ :- Advance(LParenKind);
      var package :- Advance(IdentKind);
      var _ :- Advance(RParenKind);
      r := Ok(ExtraDigest(package.name));
    }

    /** `parse_value`: claims the stream only for the three identifiers and
        otherwise leaves it untouched for the base grammar. */
    method ParseValue() returns (r: Option<Result<ExtraArg, Error>>)
      modifies this
      ensures r.None? <==> !Claims(old(tokens))
      ensures r.None? ==> tokens == old(tokens)
      ensures r.Some? ==> Some(Step(r.value, tokens)) == ValueForm(old(tokens))
    {
      if tokens == [] {
        return None;
      }
      match tokens[0] {
        case Ident("object") =>
          var v := ParseObjectValue();
          r := Some(v);
        case Ident("digest") =>
          var v := ParseDigestValue();
          r := Some(v);
        case Ident("receiving") =>
          var v := ParseReceivingValue();
          r := Some(v);
        case _ =>
          r := None;
      }
    }
  }

  /** `to_le_bytes`, `reverse` and `SuiAddress::from_bytes`: the address a
      256-bit number names. */
  method AddressFromU256(n: nat) returns (address: ObjectID)
    requires n < Pow256(32)
    ensures address == BigEndian32(n)
    ensures |address| == 32 && BeValue(address) == n
  {
    var le := LeBytes(n, 32);
    var buffer := new Byte[32](k requires 0 <= k < 32 => le[k]);
    assert buffer[..] == le;
    ReverseInPlace(buffer);
    address := buffer[..];
    BigEndian32Encodes(n);
  }

  // ---------------------------------------------------------------------
  // Command-line handles and upgrade policies

  /** The position of the first comma, as `split_once(',')` finds it. */
  function FirstComma(s: string): (r: Option<nat>)
    ensures r.None? <==> ',' !in s
    ensures r.Some? ==> r.value < |s| && s[r.value] == ',' && ',' !in s[..r.value]
  {
    if s == [] then None
    else if s[0] == ',' then Some(0)
    else match FirstComma(s[1..])
      case None => None
      case Some(k) => assert s[1..][..k] == s[1..k + 1]; Some(k + 1)
  }

  /** `parse_fake_id`: a command-line handle `I,J` or `N`.  `numeral` is the
      numeral decoder of the base grammar (`None` for text that is not a
      numeral); `parse_u64` and `parse_u256` are it with a range check. */
  method ParseFakeId(s: string, numeral: string -> Option<nat>) returns (r: Result<FakeID, Error>)
    ensures FirstComma(s).Some? ==>
      var k := FirstComma(s).value;
      var (a, b) := (numeral(s[..k]), numeral(s[k + 1..]));
      && (r.Ok? <==> a.Some? && a.value < U64_LIMIT && b.Some? && b.value < U64_LIMIT)
      && (r.Ok? ==> r.value == Enumerated(a.value, b.value))
      && (r.Err? ==> r.error == InvalidNumber(64))
    ensures FirstComma(s).None? ==>
      var a := numeral(s);
      && (r.Ok? <==> a.Some? && a.value < Pow256(32))
      && (r.Ok? ==> r.value == Known(BigEndian32(a.value)) && BeValue(r.value.address) == a.value)
      && (r.Err? ==> r.error == InvalidNumber(256))
  {
    var comma := FirstComma(s);
    if comma.Some? {
      var k := comma.value;
      var i := numeral(s[..k]);
      if i.None? || i.value >= U64_LIMIT {
        return Err(InvalidNumber(64));
      }
      var j := numeral(s[k + 1..]);
      if j.None? || j.value >= U64_LIMIT {
        return Err(InvalidNumber(64));
      }
      r := Ok(Enumerated(i.value, j.value));
    } else {
      var n := numeral(s);
      if n.None? || n.value >= Pow256(32) {
        return Err(InvalidNumber(256));
      }
      var address := AddressFromU256(n.value);
      r := Ok(Known(address));
    }
  }

  const COMPATIBLE: Byte := 0
  const ADDITIVE: Byte := 128
  const DEP_ONLY: Byte := 192

  /** `parse_policy`. */
  function ParsePolicy(x: string): (r: Result<Byte, Error>)
    ensures r.Ok? <==> x in {"compatible", "additive", "dep_only"}
    ensures r.Err? ==> r.error == InvalidPolicy(x)
  {
    match x
    case "compatible" => Ok(COMPATIBLE)
    case "additive" => Ok(ADDITIVE)
    case "dep_only" => Ok(DEP_ONLY)
    case _ => Err(InvalidPolicy(x))
  }

  /** The name each upgrade policy is written as. */
  function PolicyName(p: Byte): Option<string>
  {
    if p == COMPATIBLE then Some("compatible")
    else if p == ADDITIVE then Some("additive")
    else if p == DEP_ONLY then Some("dep_only")
    else None
  }

  /** The three names and the three policies correspond one to one. */
  lemma PolicyNamesRoundTrip(x: string, p: Byte)
    ensures ParsePolicy(x) == Ok(p) <==> PolicyName(p) == Some(x)
  {
  }
}
