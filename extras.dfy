/**
 * The `Extra` class of connect.cpp: one typed key/value parameter for the
 * manager application, and its two command-line encodings. `add_intent`
 * gives the activity-manager form `--ei|--ez|--es key value`; `add_bind`
 * gives the content-provider form `--extra key:t:value`. The decoders below
 * are the inverses a reader of those arguments applies; the round-trip
 * lemmas are what makes the encodings faithful.
 */
module Extras {
  import opened Wrappers
  import opened CArith
  import opened Decimal

  /** The tagged union of the source: exactly one representation per kind. */
  datatype Value = IntVal(i: CInt) | BoolVal(b: bool) | StrVal(s: string)

  datatype Extra = Extra(key: string, value: Value)

  /** The literal both encodings use for a value. */
  function Literal(v: Value): string {
    match v
    case IntVal(i) => IntToString(i)
    case BoolVal(b) => if b then "true" else "false"
    case StrVal(s) => s
  }

  /** The activity-manager type flag. */
  function IntentFlag(v: Value): string {
    match v
    case IntVal(_) => "--ei"
    case BoolVal(_) => "--ez"
    case StrVal(_) => "--es"
  }

  /** The content-provider type letter. */
  function TypeChar(v: Value): char {
    match v
    case IntVal(_) => 'i'
    case BoolVal(_) => 'b'
    case StrVal(_) => 's'
  }

  /** The three tokens `add_intent` appends. */
  function IntentTokens(e: Extra): seq<string> {
    [IntentFlag(e.value), e.key, Literal(e.value)]
  }

  /** The combined `key:t:value` token of `add_bind`. */
  function BindToken(e: Extra): string {
    e.key + ":" + [TypeChar(e.value)] + ":" + Literal(e.value)
  }

  /** The two tokens `add_bind` appends. */
  function BindTokens(e: Extra): seq<string> {
    ["--extra", BindToken(e)]
  }

  /** The tokens of a whole parameter list, one encoding after the other. */
  function ConcatMap(data: seq<Extra>, enc: Extra -> seq<string>): seq<string> {
    if data == [] then [] else enc(data[0]) + ConcatMap(data[1..], enc)
  }

  function IntentArgs(data: seq<Extra>): seq<string> {
    ConcatMap(data, IntentTokens)
  }

  function BindArgs(data: seq<Extra>): seq<string> {
    ConcatMap(data, BindTokens)
  }

  /** Appending one parameter appends exactly its tokens. */
  lemma {:induction false} ConcatMapSnoc(data: seq<Extra>, e: Extra, enc: Extra -> seq<string>)
    ensures ConcatMap(data + [e], enc) == ConcatMap(data, enc) + enc(e)
  {
    if data == [] {
      assert data + [e] == [e];
    } else {
      assert (data + [e])[1..] == data[1..] + [e];
      ConcatMapSnoc(data[1..], e, enc);
    }
  }

  // ---------------------------------------------------------------------------
  // Decoders

  /** Reads a literal back, given the type letter. */
  function ParseLiteral(t: char, lit: string): Option<Value> {
    if t == 'i' then
      match ParseInt(lit)
      case Some(n) => if IsCInt(n) then Some(IntVal(n)) else None
      case None => None
    else if t == 'b' then
      if lit == "true" then Some(BoolVal(true))
      else if lit == "false" then Some(BoolVal(false))
      else None
    else if t == 's' then Some(StrVal(lit))
    else None
  }

  function FlagTypeChar(flag: string): Option<char> {
    if flag == "--ei" then Some('i')
    else if flag == "--ez" then Some('b')
    else if flag == "--es" then Some('s')
    else None
  }

  /** Reads one `flag key value` triple back. */
  function ParseIntent(flag: string, key: string, lit: string): Option<Extra> {
    match FlagTypeChar(flag)
    case None => None
    case Some(t) =>
      match ParseLiteral(t, lit)
      case None => None
      case Some(v) => Some(Extra(key, v))
  }

  /** Index of the first ':' of `s`, or `|s|` when there is none. */
  function FirstColon(s: string): (k: nat)
    ensures k <= |s|
    ensures forall j :: 0 <= j < k ==> s[j] != ':'
    ensures k < |s| ==> s[k] == ':'
  {
    if s == [] || s[0] == ':' then 0 else 1 + FirstColon(s[1..])
  }

  /** Reads one `key:t:value` token back; the key ends at the first ':'. */
  function ParseBind(tok: string): Option<Extra> {
    var k := FirstColon(tok);
    if k + 2 < |tok| && tok[k + 2] == ':' then
      match ParseLiteral(tok[k + 1], tok[k + 3..])
      case None => None
      case Some(v) => Some(Extra(tok[..k], v))
    else None
  }

  lemma LiteralRoundTrip(v: Value)
    ensures ParseLiteral(TypeChar(v), Literal(v)) == Some(v)
  {
    if v.IntVal? {
      IntToStringRoundTrip(v.i);
    }
  }

  /** `add_intent`'s tokens identify the parameter completely. */
  lemma IntentRoundTrip(e: Extra)
    ensures ParseIntent(IntentTokens(e)[0], IntentTokens(e)[1], IntentTokens(e)[2]) == Some(e)
  {
    LiteralRoundTrip(e.value);
  }

  /** `add_bind`'s token identifies the parameter, as long as its key has no ':'. */
  lemma BindRoundTrip(e: Extra)
    requires ':' !in e.key
    ensures ParseBind(BindToken(e)) == Some(e)
  {
    var tok := BindToken(e);
    var n := |e.key|;
    assert tok[..n] == e.key;
    assert tok[n] == ':';
    var k := FirstColon(tok);
    assert k <= n;
    assert k == n;
    assert tok[n + 1] == TypeChar(e.value) && tok[n + 2] == ':';
    assert tok[n + 3..] == Literal(e.value);
    LiteralRoundTrip(e.value);
  }

  /** Both encodings carry the same literal for the value. Here that holds by
   *  construction, since both token functions use `Literal`; the agreement
   *  of the source's two separately written renderings is what the contracts
   *  of `AddIntent` and `AddBind` establish. */
  lemma EncodingsAgree(e: Extra)
    ensures BindToken(e) == e.key + ":" + [TypeChar(e.value)] + ":" + IntentTokens(e)[2]
  {
  }

  predicate ColonFreeKeys(data: seq<Extra>) {
    forall i :: 0 <= i < |data| ==> ':' !in data[i].key
  }

  /** Reads a whole activity-manager parameter list back. */
  function DecodeIntentArgs(t: seq<string>): Option<seq<Extra>>
    decreases |t|
  {
    if t == [] then Some([])
    else if |t| < 3 then None
    else
      match ParseIntent(t[0], t[1], t[2])
      case None => None
      case Some(e) =>
        match DecodeIntentArgs(t[3..])
        case None => None
        case Some(rest) => Some([e] + rest)
  }

  /** Reads a whole content-provider parameter list back. */
  function DecodeBindArgs(t: seq<string>): Option<seq<Extra>>
    decreases |t|
  {
    if t == [] then Some([])
    else if |t| < 2 || t[0] != "--extra" then None
    else
      match ParseBind(t[1])
      case None => None
      case Some(e) =>
        match DecodeBindArgs(t[2..])
        case None => None
        case Some(rest) => Some([e] + rest)
  }

  lemma {:induction false} IntentArgsRoundTrip(data: seq<Extra>)
    ensures DecodeIntentArgs(IntentArgs(data)) == Some(data)
  {
    if data != [] {
      var t := IntentArgs(data);
      assert t == IntentTokens(data[0]) + IntentArgs(data[1..]);
      assert t[..3] == IntentTokens(data[0]);
      assert t[3..] == IntentArgs(data[1..]);
      IntentRoundTrip(data[0]);
      IntentArgsRoundTrip(data[1..]);
      assert [data[0]] + data[1..] == data;
    }
  }

  lemma {:induction false} BindArgsRoundTrip(data: seq<Extra>)
    requires ColonFreeKeys(data)
    ensures DecodeBindArgs(BindArgs(data)) == Some(data)
  {
    if data != [] {
      var t := BindArgs(data);
      assert t == BindTokens(data[0]) + BindArgs(data[1..]);
      assert t[2..] == BindArgs(data[1..]);
      BindRoundTrip(data[0]);
      assert ColonFreeKeys(data[1..]) by {
        forall i | 0 <= i < |data[1..]| ensures ':' !in data[1..][i].key {
          assert data[1..][i] == data[i + 1];
        }
      }
      BindArgsRoundTrip(data[1..]);
      assert [data[0]] + data[1..] == data;
    }
  }

  // ---------------------------------------------------------------------------
  // The caller's argument vector, which `add_intent` and `add_bind` extend in place

  /** A `vector<const char *>` of command-line tokens. */
  class ArgVector {
    var tokens: seq<string>

    constructor (init: seq<string>)
      ensures tokens == init
    {
      tokens := init;
    }

    method PushBack(t: string)
      modifies this
      ensures tokens == old(tokens) + [t]
    {
      tokens := tokens + [t];
    }

    /** `args[i] = t`, or a write to the buffer that slot `i` points at. */
    method Set(i: nat, t: string)
      requires i < |tokens|
      modifies this
      ensures tokens == old(tokens)[i := t]
    {
      tokens := tokens[i := t];
    }
  }

  /** `Extra::add_intent`: flag, key, value are appended; nothing else changes. */
  method AddIntent(e: Extra, vec: ArgVector)
    modifies vec
    ensures vec.tokens == old(vec.tokens) + IntentTokens(e)
  {
    var val: string;
    match e.value {
      case IntVal(i) =>
        vec.PushBack("--ei");
        val := IntToString(i);
      case BoolVal(b) =>
        vec.PushBack("--ez");
        val := if b then "true" else "false";
      case StrVal(s) =>
        vec.PushBack("--es");
        val := s;
    }
    vec.PushBack(e.key);
    vec.PushBack(val);
  }

  /** `Extra::add_bind`: `--extra` and `key:t:value` are appended; nothing else changes. */
  method AddBind(e: Extra, vec: ArgVector)
    modifies vec
    ensures vec.tokens == old(vec.tokens) + BindTokens(e)
  {
    var buf: string;
    match e.value {
      case IntVal(i) =>
        buf := e.key + ":i:" + IntToString(i);
        assert ":i:" == ":" + ['i'] + ":";
      case BoolVal(b) =>
        buf := e.key + ":b:" + (if b then "true" else "false");
        assert ":b:" == ":" + ['b'] + ":";
      case StrVal(s) =>
        buf := e.key + ":s:" + s;
        assert ":s:" == ":" + ['s'] + ":";
    }
    assert buf == BindToken(e);
    vec.PushBack("--extra");
    vec.PushBack(buf);
  }
}
