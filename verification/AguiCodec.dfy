/**
 The results about chunked payloads assume that decoding undoes encoding. Here is an environment that does:
 letters encode any payload, each part telling where it ends.
 */
module AguiCodec {
  import opened Wrappers
  import opened Utf8
  import opened AguiEvents

  /** A number, and what comes after it. */
  function Number(n: nat, rest: seq<Byte>): seq<Byte> {
    if n == 0 then [0x62] + rest else [0x61] + Number(n - 1, rest)
  }

  function String(s: seq<Byte>, rest: seq<Byte>): seq<Byte> {
    if s == [] then Number(0, rest) else Number(1 + s[0] as nat, String(s[1..], rest))
  }

  function Values(values: seq<Json>, rest: seq<Byte>): seq<Byte> {
    if values == [] then Number(0, rest) else Number(1, String(values[0], Values(values[1..], rest)))
  }

  function RoleNumber(role: Role): nat {
    match role
    case User => 0
    case Agent => 1
    case Thought => 2
  }

  function FlagNumber(flag: bool): nat {
    if flag then 1 else 0
  }

  function Kind(p: Payload): nat {
    match p
    case MessageContent(_, _, _) => 0
    case ToolText(_, _, _) => 1
    case ToolContent(_, _, _, _, _) => 2
    case ToolStructure(_, _, _, _) => 3
  }

  /** The letters after the kind. */
  function Body(p: Payload): seq<Byte> {
    match p
    case MessageContent(message, role, block) => Number(message, Number(RoleNumber(role), String(block, [])))
    case ToolText(tool, revision, text) => Number(tool, String(revision.of, String(text, [])))
    case ToolContent(tool, structured, locations, state, available) =>
      Number(tool, Values(structured, Values(locations, String(state.of, Number(FlagNumber(available), [])))))
    case ToolStructure(tool, structured, locations, available) =>
      Number(tool, Values(structured, Values(locations, Number(FlagNumber(available), []))))
  }

  function Letters(p: Payload): seq<Byte> {
    Number(Kind(p), Body(p))
  }

  // ---- different payloads have different letters ----

  lemma {:induction false} NumberTells(n: nat, a: seq<Byte>, m: nat, b: seq<Byte>)
    requires Number(n, a) == Number(m, b)
    ensures n == m && a == b
  {
    var s, t := Number(n, a), Number(m, b);
    assert s[0] == t[0] && s[1..] == t[1..];
    if n == 0 {
      assert s[1..] == a && t[1..] == b;
    } else {
      assert s[1..] == Number(n - 1, a) && t[1..] == Number(m - 1, b);
      NumberTells(n - 1, a, m - 1, b);
    }
  }

  lemma {:induction false} StringTells(s: seq<Byte>, a: seq<Byte>, t: seq<Byte>, b: seq<Byte>)
    requires String(s, a) == String(t, b)
    ensures s == t && a == b
    decreases |s|
  {
    var n := if s == [] then 0 else 1 + s[0] as nat;
    var m := if t == [] then 0 else 1 + t[0] as nat;
    var x := if s == [] then a else String(s[1..], a);
    var y := if t == [] then b else String(t[1..], b);
    NumberTells(n, x, m, y);
    if s != [] {
      StringTells(s[1..], a, t[1..], b);
      assert s == [s[0]] + s[1..] && t == [t[0]] + t[1..];
    }
  }

  lemma {:induction false} ValuesTell(v: seq<Json>, a: seq<Byte>, w: seq<Json>, b: seq<Byte>)
    requires Values(v, a) == Values(w, b)
    ensures v == w && a == b
    decreases |v|
  {
    hide Valid, Number, String;
    var x := if v == [] then a else String(v[0], Values(v[1..], a));
    var y := if w == [] then b else String(w[0], Values(w[1..], b));
    NumberTells(if v == [] then 0 else 1, x, if w == [] then 0 else 1, y);
    if v != [] {
      StringTells(v[0], Values(v[1..], a), w[0], Values(w[1..], b));
      ValuesTell(v[1..], a, w[1..], b);
      assert v == [v[0]] + v[1..] && w == [w[0]] + w[1..];
    }
  }

  lemma MessageContentTells(p: Payload, q: Payload)
    requires p.MessageContent? && q.MessageContent? && Body(p) == Body(q)
    ensures p == q
  {
    hide Valid, Number, String;
    var x, y := String(p.block, []), String(q.block, []);
    NumberTells(p.message, Number(RoleNumber(p.role), x), q.message, Number(RoleNumber(q.role), y));
    NumberTells(RoleNumber(p.role), x, RoleNumber(q.role), y);
    StringTells(p.block, [], q.block, []);
  }

  lemma ToolTextTells(p: Payload, q: Payload)
    requires p.ToolText? && q.ToolText? && Body(p) == Body(q)
    ensures p == q
  {
    hide Valid, Number, String;
    var x, y := String(p.text, []), String(q.text, []);
    NumberTells(p.tool, String(p.revision.of, x), q.tool, String(q.revision.of, y));
    StringTells(p.revision.of, x, q.revision.of, y);
    StringTells(p.text, [], q.text, []);
  }

  lemma ToolContentTells(p: Payload, q: Payload)
    requires p.ToolContent? && q.ToolContent? && Body(p) == Body(q)
    ensures p == q
  {
    hide Valid, Number, String, Values;
    var a, b := Number(FlagNumber(p.available), []), Number(FlagNumber(q.available), []);
    var s, t := String(p.state.of, a), String(q.state.of, b);
    var v, w := Values(p.locations, s), Values(q.locations, t);
    NumberTells(p.tool, Values(p.structured, v), q.tool, Values(q.structured, w));
    ValuesTell(p.structured, v, q.structured, w);
    ValuesTell(p.locations, s, q.locations, t);
    StringTells(p.state.of, a, q.state.of, b);
    NumberTells(FlagNumber(p.available), [], FlagNumber(q.available), []);
  }

  lemma ToolStructureTells(p: Payload, q: Payload)
    requires p.ToolStructure? && q.ToolStructure? && Body(p) == Body(q)
    ensures p == q
  {
    hide Valid, Number, String, Values;
    var a, b := Number(FlagNumber(p.available), []), Number(FlagNumber(q.available), []);
    var v, w := Values(p.locations, a), Values(q.locations, b);
    NumberTells(p.tool, Values(p.structured, v), q.tool, Values(q.structured, w));
    ValuesTell(p.structured, v, q.structured, w);
    ValuesTell(p.locations, a, q.locations, b);
    NumberTells(FlagNumber(p.available), [], FlagNumber(q.available), []);
  }

  lemma LettersTell(p: Payload, q: Payload)
    requires Letters(p) == Letters(q)
    ensures p == q
  {
    hide Number, Body;
    NumberTells(Kind(p), Body(p), Kind(q), Body(q));
    match p
    case MessageContent(_, _, _) => MessageContentTells(p, q);
    case ToolText(_, _, _) => ToolTextTells(p, q);
    case ToolContent(_, _, _, _, _) => ToolContentTells(p, q);
    case ToolStructure(_, _, _, _) => ToolStructureTells(p, q);
  }

  // ---- letters are text ----

  predicate AreLetters(s: seq<Byte>) {
    forall i :: 0 <= i < |s| ==> s[i] == 0x61 || s[i] == 0x62
  }

  lemma {:induction false} NumberLetters(n: nat, rest: seq<Byte>)
    requires AreLetters(rest)
    ensures AreLetters(Number(n, rest))
  {
    if n > 0 {
      NumberLetters(n - 1, rest);
    }
  }

  lemma {:induction false} StringLetters(s: seq<Byte>, rest: seq<Byte>)
    requires AreLetters(rest)
    ensures AreLetters(String(s, rest))
  {
    hide Number;
    if s == [] {
      NumberLetters(0, rest);
    } else {
      StringLetters(s[1..], rest);
      NumberLetters(1 + s[0] as nat, String(s[1..], rest));
    }
  }

  lemma {:induction false} ValuesLetters(values: seq<Json>, rest: seq<Byte>)
    requires AreLetters(rest)
    ensures AreLetters(Values(values, rest))
  {
    hide Number, String, Valid;
    if values == [] {
      NumberLetters(0, rest);
    } else {
      ValuesLetters(values[1..], rest);
      StringLetters(values[0], Values(values[1..], rest));
      NumberLetters(1, String(values[0], Values(values[1..], rest)));
    }
  }

  lemma PayloadLetters(p: Payload)
    ensures AreLetters(Letters(p))
  {
    hide Number, String, Values, AreLetters, Valid;
    assert AreLetters([]) by { NoLetters(); }
    match p {
      case MessageContent(message, role, block) =>
        var x := String(block, []);
        StringLetters(block, []);
        NumberLetters(RoleNumber(role), x);
        NumberLetters(message, Number(RoleNumber(role), x));
      case ToolText(tool, revision, text) =>
        var x := String(text, []);
        StringLetters(text, []);
        StringLetters(revision.of, x);
        NumberLetters(tool, String(revision.of, x));
      case ToolContent(tool, structured, locations, state, available) =>
        var x := Number(FlagNumber(available), []);
        var y := String(state.of, x);
        NumberLetters(FlagNumber(available), []);
        StringLetters(state.of, x);
        ListsLetters(tool, structured, locations, y);
      case ToolStructure(tool, structured, locations, available) =>
        var x := Number(FlagNumber(available), []);
        NumberLetters(FlagNumber(available), []);
        ListsLetters(tool, structured, locations, x);
    }
    NumberLetters(Kind(p), Body(p));
  }

  lemma ListsLetters(tool: Id, structured: seq<Json>, locations: seq<Json>, rest: seq<Byte>)
    requires AreLetters(rest)
    ensures AreLetters(Number(tool, Values(structured, Values(locations, rest))))
  {
    hide Number, Values, AreLetters, Valid;
    ValuesLetters(locations, rest);
    ValuesLetters(structured, Values(locations, rest));
    NumberLetters(tool, Values(structured, Values(locations, rest)));
  }

  lemma NoLetters()
    ensures AreLetters([])
  {
  }

  lemma LettersAreText(s: seq<Byte>)
    requires AreLetters(s)
    ensures Valid(s)
  {
    forall i | 0 <= i < |s| && !Continuation(s[i]) ensures ScalarAt(s, i) {
      assert ScalarLen(s, i) == 1;
    }
  }

  // ---- the environment ----

  function Encoded(p: Payload): Text {
    PayloadLetters(p);
    LettersAreText(Letters(p));
    Letters(p)
  }

  ghost function Decoded(s: Text): Option<Payload> {
    if exists p: Payload :: Encoded(p) == s then
      var p: Payload :| Encoded(p) == s;
      Some(p)
    else None
  }

  /** Some environment round-trips, whatever the rest of it does. */
  lemma SomeEnvironmentRoundTrips(env: Environment)
    ensures exists decode ::
              env.(encode := Encoded, decode := decode).RoundTrips()
  {
    var decode: Text -> Option<Payload> := (s: Text) => Decoded(s);
    var other := env.(encode := Encoded, decode := decode);
    forall p: Payload ensures other.decode(other.encode(p)) == Some(p) {
      hide Letters, Valid;
      assert Encoded(p) == Letters(p);
      var q := Decoded(Encoded(p)).value;
      LettersTell(p, q);
    }
    assert other.RoundTrips();
  }
}
