/**
 * The JSON text stored under `user_info`: `JSON.stringify` and `JSON.parse`
 * of a flat object whose values are strings.
 *
 * An object is the list of its members in insertion order, which is the order
 * JavaScript keeps for keys that are not array indices and the order
 * `JSON.stringify` writes them. Keys that look like array indices (such as
 * "2"), which JavaScript lists first in ascending order, are not modelled.
 */
module Json {
  import opened Wrappers

  type Member = (string, string)
  type Object = seq<Member>

  /** Some member of `o` is named `k`. */
  predicate HasKey(o: Object, k: string) {
    o != [] && (o[0].0 == k || HasKey(o[1..], k))
  }

  /** No key names two members. */
  predicate DistinctKeys(o: Object) {
    o == [] || (!HasKey(o[1..], o[0].0) && DistinctKeys(o[1..]))
  }

  /** `o[k]`: the value of the member named `k`, if any. */
  function Get(o: Object, k: string): (r: Option<string>)
    ensures r.None? <==> !HasKey(o, k)
  {
    if o == [] then None else if o[0].0 == k then Some(o[0].1) else Get(o[1..], k)
  }

  /** `o[k] = v`: an existing member keeps its place and takes the new value; a new one goes last. */
  function Set(o: Object, k: string, v: string): (r: Object)
    ensures |r| == if HasKey(o, k) then |o| else |o| + 1
  {
    if o == [] then [(k, v)]
    else if o[0].0 == k then [(k, v)] + o[1..]
    else [o[0]] + Set(o[1..], k, v)
  }

  /** `delete o[k]` (equally, `o[k] = undefined` followed by `JSON.stringify`). */
  function Remove(o: Object, k: string): (r: Object)
    ensures |r| <= |o|
  {
    if o == [] then [] else (if o[0].0 == k then [] else [o[0]]) + Remove(o[1..], k)
  }

  /** After `o[k] = v`, reading `k` gives `v` and every other key reads as before. */
  lemma {:induction false} SetGet(o: Object, k: string, v: string, k': string)
    ensures Get(Set(o, k, v), k') == if k' == k then Some(v) else Get(o, k')
  {
    if o != [] && o[0].0 != k {
      SetGet(o[1..], k, v, k');
    }
  }

  /** Setting a key that is absent appends one member at the end. */
  lemma {:induction false} SetAbsent(o: Object, k: string, v: string)
    requires !HasKey(o, k)
    ensures Set(o, k, v) == o + [(k, v)]
  {
    if o != [] {
      SetAbsent(o[1..], k, v);
    }
  }

  /** After `o[k] = v` the keys are those of `o` and `k`. */
  lemma {:induction false} SetHasKey(o: Object, k: string, v: string, k': string)
    ensures HasKey(Set(o, k, v), k') <==> HasKey(o, k') || k' == k
  {
    if o != [] && o[0].0 != k {
      SetHasKey(o[1..], k, v, k');
    }
  }

  /** Setting a key never makes two members share a key. */
  lemma {:induction false} SetKeepsDistinct(o: Object, k: string, v: string)
    requires DistinctKeys(o)
    ensures DistinctKeys(Set(o, k, v))
  {
    if o != [] && o[0].0 != k {
      SetKeepsDistinct(o[1..], k, v);
      SetHasKey(o[1..], k, v, o[0].0);
    }
  }

  /** After removing `k`, it reads as missing and every other key reads as before. */
  lemma {:induction false} RemoveGet(o: Object, k: string, k': string)
    ensures Get(Remove(o, k), k') == if k' == k then None else Get(o, k')
  {
    if o != [] {
      RemoveGet(o[1..], k, k');
      if o[0].0 != k {
        assert Remove(o, k) == [o[0]] + Remove(o[1..], k);
      } else {
        assert Remove(o, k) == Remove(o[1..], k);
      }
    }
  }

  /** After removing `k`, the keys are those of `o` other than `k`. */
  lemma {:induction false} RemoveHasKey(o: Object, k: string, k': string)
    ensures HasKey(Remove(o, k), k') <==> HasKey(o, k') && k' != k
  {
    if o != [] {
      RemoveHasKey(o[1..], k, k');
      if o[0].0 != k {
        assert Remove(o, k) == [o[0]] + Remove(o[1..], k);
        assert ([o[0]] + Remove(o[1..], k))[1..] == Remove(o[1..], k);
      } else {
        assert Remove(o, k) == Remove(o[1..], k);
      }
    }
  }

  /** Removing a key never makes two members share a key. */
  lemma {:induction false} RemoveKeepsDistinct(o: Object, k: string)
    requires DistinctKeys(o)
    ensures DistinctKeys(Remove(o, k))
  {
    if o != [] {
      RemoveKeepsDistinct(o[1..], k);
      if o[0].0 != k {
        RemoveHasKey(o[1..], k, o[0].0);
        assert Remove(o, k) == [o[0]] + Remove(o[1..], k);
        assert ([o[0]] + Remove(o[1..], k))[1..] == Remove(o[1..], k);
      } else {
        assert Remove(o, k) == Remove(o[1..], k);
      }
    }
  }

  /**
   * The object literal `{k1: o.k1, k2: o.k2, ...}` as `JSON.stringify` sees
   * it: the listed keys that `o` has, in the listed order (a property whose
   * value is `undefined` is not written).
   */
  function Pick(o: Object, keys: seq<string>): Object {
    if keys == [] then []
    else
      var rest := Pick(o, keys[1..]);
      match Get(o, keys[0])
      case None => rest
      case Some(v) => [(keys[0], v)] + rest
  }

  /** A picked object reads like `o` on the listed keys and has no other key. */
  lemma {:induction false} PickGet(o: Object, keys: seq<string>, k: string)
    ensures Get(Pick(o, keys), k) == if k in keys then Get(o, k) else None
  {
    if keys != [] {
      PickGet(o, keys[1..], k);
    }
  }

  // ---------------------------------------------------------------- stringify

  /** A lower-case hexadecimal digit, as `JSON.stringify` writes it in `\u00XX`. */
  function HexDigit(d: nat): char
    requires d < 16
  {
    if d < 10 then ('0' as int + d) as char else ('a' as int + d - 10) as char
  }

  /** How `JSON.stringify` writes one character inside a string literal. */
  function EscapeChar(c: char): string {
    if c == '"' then ['\\', '"']
    else if c == '\\' then ['\\', '\\']
    else if c == '\U{0008}' then ['\\', 'b']
    else if c == '\U{000C}' then ['\\', 'f']
    else if c == '\n' then ['\\', 'n']
    else if c == '\r' then ['\\', 'r']
    else if c == '\t' then ['\\', 't']
    else if c as int < 0x20 then ['\\', 'u', '0', '0', HexDigit(c as int / 16), HexDigit(c as int % 16)]
    else [c]
  }

  /** The body of the string literal for `s`. */
  function Escape(s: string): string {
    if s == [] then "" else EscapeChar(s[0]) + Escape(s[1..])
  }

  /** The string literal for `s`. */
  function Quote(s: string): string {
    "\"" + Escape(s) + "\""
  }

  function MemberText(m: Member): string {
    Quote(m.0) + ":" + Quote(m.1)
  }

  function MembersText(o: Object): string {
    if o == [] then ""
    else if |o| == 1 then MemberText(o[0])
    else MemberText(o[0]) + "," + MembersText(o[1..])
  }

  /** `JSON.stringify(o)`. */
  function Serialize(o: Object): string {
    "{" + MembersText(o) + "}"
  }

  // -------------------------------------------------------------------- parse

  /** JSON's insignificant whitespace. */
  predicate IsJsonWhitespace(c: char) {
    c == ' ' || c == '\t' || c == '\n' || c == '\r'
  }

  function SkipWhitespace(s: string): (r: string)
    ensures |r| <= |s|
    ensures r != [] ==> !IsJsonWhitespace(r[0])
  {
    if s != [] && IsJsonWhitespace(s[0]) then SkipWhitespace(s[1..]) else s
  }

  function HexValue(c: char): (r: Option<nat>)
    ensures r.Some? ==> r.value < 16
  {
    if '0' <= c <= '9' then Some(c as int - '0' as int)
    else if 'a' <= c <= 'f' then Some(c as int - 'a' as int + 10)
    else if 'A' <= c <= 'F' then Some(c as int - 'A' as int + 10)
    else None
  }

  /** The code unit written as four hexadecimal digits at the start of `s`. */
  function Hex4(s: string): (r: Option<nat>)
    requires |s| >= 4
    ensures r.Some? ==> r.value < 0x10000
  {
    match (HexValue(s[0]), HexValue(s[1]), HexValue(s[2]), HexValue(s[3]))
    case (Some(a), Some(b), Some(c), Some(d)) => Some(((a * 16 + b) * 16 + c) * 16 + d)
    case _ => None
  }

  /** The character a one-letter escape such as `\n` stands for. */
  function ShortEscape(c: char): Option<char> {
    if c == '"' then Some('"')
    else if c == '\\' then Some('\\')
    else if c == '/' then Some('/')
    else if c == 'b' then Some('\U{0008}')
    else if c == 'f' then Some('\U{000C}')
    else if c == 'n' then Some('\n')
    else if c == 'r' then Some('\r')
    else if c == 't' then Some('\t')
    else None
  }

  /** The character of a `\uXXXX` escape, `s` starting at the `u`. */
  function UnicodeEscape(s: string): Option<char>
    requires |s| >= 5
  {
    match Hex4(s[1..5])
    case Some(n) =>
      // A lone surrogate code unit is not a character of this model.
      if n < 0xD800 || 0xE000 <= n then Some(n as char) else None
    case None => None
  }

  /** The escape sequence that follows a backslash: the character it stands for and what follows it. */
  function ParseEscape(s: string): (r: Option<(char, string)>)
    ensures r.Some? ==> |r.value.1| < |s|
  {
    if s == [] then None
    else if ShortEscape(s[0]).Some? then Some((ShortEscape(s[0]).value, s[1..]))
    else if s[0] == 'u' && |s| >= 5 && UnicodeEscape(s).Some? then Some((UnicodeEscape(s).value, s[5..]))
    else None
  }

  /** The rest of a string literal after its opening quote: its value and what follows the closing quote. */
  function ParseStringBody(s: string): (r: Option<(string, string)>)
    ensures r.Some? ==> |r.value.1| < |s|
    decreases |s|
  {
    if s == [] then None
    else if s[0] == '"' then Some(("", s[1..]))
    else if s[0] == '\\' then
      match ParseEscape(s[1..])
      case None => None
      case Some((c, rest)) =>
        match ParseStringBody(rest)
        case None => None
        case Some((v, rest')) => Some(([c] + v, rest'))
    else if s[0] as int < 0x20 then None
    else
      match ParseStringBody(s[1..])
      case None => None
      case Some((v, rest)) => Some(([s[0]] + v, rest))
  }

  function ParseString(s: string): (r: Option<(string, string)>)
    ensures r.Some? ==> |r.value.1| < |s|
  {
    if s != [] && s[0] == '"' then ParseStringBody(s[1..]) else None
  }

  /** One `"key": "value"` member. */
  function ParseMember(s: string): (r: Option<(Member, string)>)
    ensures r.Some? ==> |r.value.1| < |s|
  {
    match ParseString(s)
    case None => None
    case Some((k, rest)) =>
      var colon := SkipWhitespace(rest);
      if colon == [] || colon[0] != ':' then None
      else
        match ParseString(SkipWhitespace(colon[1..]))
        case None => None
        case Some((v, rest')) => Some(((k, v), rest'))
  }

  /** Members separated by commas up to the closing brace, and the text after the brace. */
  function ParseMembers(s: string): (r: Option<(seq<Member>, string)>)
    ensures r.Some? ==> |r.value.1| < |s|
    decreases |s|
  {
    match ParseMember(s)
    case None => None
    case Some((m, rest)) =>
      var next := SkipWhitespace(rest);
      if next == [] then None
      else if next[0] == '}' then Some(([m], next[1..]))
      else if next[0] == ',' then
        match ParseMembers(SkipWhitespace(next[1..]))
        case None => None
        case Some((ms, rest')) => Some(([m] + ms, rest'))
      else None
  }

  /** The object `JSON.parse` builds by assigning the members it reads, in order, onto `acc`: a repeated key keeps its first place and its last value. */
  function Build(acc: Object, ms: seq<Member>): Object
    decreases |ms|
  {
    if ms == [] then acc else Build(Set(acc, ms[0].0, ms[0].1), ms[1..])
  }

  /** `JSON.parse(text)`, or None where it throws (or where the text is not a flat object of strings). */
  function Parse(text: string): Option<Object> {
    var t := SkipWhitespace(text);
    if t == [] || t[0] != '{' then None
    else
      var body := SkipWhitespace(t[1..]);
      var members: Option<(seq<Member>, string)> :=
        if body != [] && body[0] == '}' then Some(([], body[1..])) else ParseMembers(body);
      match members
      case None => None
      case Some((ms, rest)) => if SkipWhitespace(rest) == [] then Some(Build([], ms)) else None
  }

  // ---------------------------------------------------------------- round trip

  /** Assigning members onto an object with distinct keys keeps the keys distinct. */
  lemma {:induction false} BuildDistinct(acc: Object, ms: seq<Member>)
    requires DistinctKeys(acc)
    ensures DistinctKeys(Build(acc, ms))
    decreases |ms|
  {
    if ms != [] {
      SetKeepsDistinct(acc, ms[0].0, ms[0].1);
      BuildDistinct(Set(acc, ms[0].0, ms[0].1), ms[1..]);
    }
  }

  /** Whatever `JSON.parse` returns has distinct keys. */
  lemma ParseDistinct(text: string)
    ensures Parse(text).Some? ==> DistinctKeys(Parse(text).value)
  {
    var t := SkipWhitespace(text);
    if Parse(text).Some? {
      var body := SkipWhitespace(t[1..]);
      var members: Option<(seq<Member>, string)> :=
        if body != [] && body[0] == '}' then Some(([], body[1..])) else ParseMembers(body);
      BuildDistinct([], members.value.0);
    }
  }

  lemma {:induction false} HasKeyAt(o: Object, i: nat)
    requires i < |o|
    ensures HasKey(o, o[i].0)
  {
    if i > 0 {
      HasKeyAt(o[1..], i - 1);
    }
  }

  lemma {:induction false} HasKeyAppend(o: Object, m: Member, k: string)
    ensures HasKey(o + [m], k) <==> HasKey(o, k) || m.0 == k
  {
    if o != [] {
      HasKeyAppend(o[1..], m, k);
      assert (o + [m])[1..] == o[1..] + [m];
    }
  }

  /** Members with distinct keys, none of them already in `acc`, are appended as they are. */
  lemma {:induction false} BuildAppends(acc: Object, ms: seq<Member>)
    requires DistinctKeys(ms)
    requires forall i | 0 <= i < |ms| :: !HasKey(acc, ms[i].0)
    ensures Build(acc, ms) == acc + ms
    decreases |ms|
  {
    if ms != [] {
      var m := ms[0];
      SetAbsent(acc, m.0, m.1);
      var acc' := acc + [m];
      forall i | 0 <= i < |ms[1..]|
        ensures !HasKey(acc', ms[1..][i].0)
      {
        HasKeyAppend(acc, m, ms[1..][i].0);
        HasKeyAt(ms[1..], i);
      }
      BuildAppends(acc', ms[1..]);
      assert acc' + ms[1..] == acc + ms;
    }
  }

  lemma HexDigitValue(d: nat)
    requires d < 16
    ensures HexValue(HexDigit(d)) == Some(d)
  {
  }

  /** The escaped form of one character reads back as that character. */
  lemma EscapeCharRoundTrip(c: char, rest: string)
    ensures EscapeChar(c) != [] && |EscapeChar(c)| <= 6
    ensures EscapeChar(c)[0] == '\\' ==> ParseEscape(EscapeChar(c)[1..] + rest) == Some((c, rest))
    ensures EscapeChar(c)[0] != '\\' ==> EscapeChar(c) == [c] && c != '"' && c as int >= 0x20
  {
    var e := EscapeChar(c);
    if c as int < 0x20 && c != '\U{0008}' && c != '\U{000C}' && c != '\n' && c != '\r' && c != '\t' {
      var n := c as int;
      HexDigitValue(n / 16);
      HexDigitValue(n % 16);
      var s := e[1..] + rest;
      assert s[1..5] == ['0', '0', HexDigit(n / 16), HexDigit(n % 16)];
      assert Hex4(s[1..5]) == Some(n);
      assert UnicodeEscape(s) == Some(c);
      assert s[5..] == rest;
    } else {
      assert e[1..] + rest == e[1..] + rest;
      if e[0] == '\\' {
        assert (e[1..] + rest)[1..] == rest;
      }
    }
  }

  /** Reading a literal body that starts with an escape sequence. */
  lemma ParseEscapedStep(s: string, c: char, tail: string, v: string, rest: string)
    requires s != [] && s[0] == '\\'
    requires ParseEscape(s[1..]) == Some((c, tail))
    requires ParseStringBody(tail) == Some((v, rest))
    ensures ParseStringBody(s) == Some(([c] + v, rest))
  {
  }

  /** Reading a literal body that starts with a plain character. */
  lemma ParsePlainStep(s: string, v: string, rest: string)
    requires s != [] && s[0] != '"' && s[0] != '\\' && s[0] as int >= 0x20
    requires ParseStringBody(s[1..]) == Some((v, rest))
    ensures ParseStringBody(s) == Some(([s[0]] + v, rest))
  {
  }

  /** Reading the written form of one character in front of a literal body that reads back. */
  lemma ParseCharStep(c: char, tail: string, v: string, rest: string)
    requires ParseStringBody(tail) == Some((v, rest))
    ensures ParseStringBody(EscapeChar(c) + tail) == Some(([c] + v, rest))
  {
    EscapeCharRoundTrip(c, tail);
    var e := EscapeChar(c);
    var s := e + tail;
    if e[0] == '\\' {
      assert s[1..] == e[1..] + tail;
      ParseEscapedStep(s, c, tail, v, rest);
    } else {
      assert s[1..] == tail;
      ParsePlainStep(s, v, rest);
    }
  }

  /** A string literal body written by `JSON.stringify` reads back as its value. */
  lemma {:induction false} ParseStringBodyRoundTrip(v: string, rest: string)
    ensures ParseStringBody(Escape(v) + "\"" + rest) == Some((v, rest))
  {
    if v == [] {
      assert Escape(v) + "\"" + rest == "\"" + rest;
    } else {
      var tail := Escape(v[1..]) + "\"" + rest;
      ParseStringBodyRoundTrip(v[1..], rest);
      ParseCharStep(v[0], tail, v[1..], rest);
      assert Escape(v) + "\"" + rest == EscapeChar(v[0]) + tail;
      assert [v[0]] + v[1..] == v;
    }
  }

  lemma ParseStringRoundTrip(v: string, rest: string)
    ensures ParseString(Quote(v) + rest) == Some((v, rest))
  {
    var s := Quote(v) + rest;
    assert s[0] == '"';
    assert s[1..] == Escape(v) + "\"" + rest;
    ParseStringBodyRoundTrip(v, rest);
  }

  /** Reading a member: its key, a colon, then its value. */
  lemma ParseMemberStep(s: string, k: string, after: string, v: string, rest: string)
    requires ParseString(s) == Some((k, after))
    requires after != [] && after[0] == ':'
    requires after[1..] != [] && after[1..][0] == '"'
    requires ParseString(after[1..]) == Some((v, rest))
    ensures ParseMember(s) == Some(((k, v), rest))
  {
    SkipNoWhitespace(after);
    SkipNoWhitespace(after[1..]);
  }

  lemma ParseMemberRoundTrip(m: Member, rest: string)
    ensures ParseMember(MemberText(m) + rest) == Some((m, rest))
  {
    var value := Quote(m.1) + rest;
    var after := ":" + value;
    assert MemberText(m) + rest == Quote(m.0) + after;
    ParseStringRoundTrip(m.0, after);
    assert after[1..] == value;
    assert value[0] == '"';
    ParseStringRoundTrip(m.1, rest);
    ParseMemberStep(MemberText(m) + rest, m.0, after, m.1, rest);
  }

  /** Reading the last member, then the closing brace. */
  lemma ParseLastMemberStep(m: Member, rest: string)
    ensures ParseMembers(MemberText(m) + "}" + rest) == Some(([m], rest))
  {
    var after := "}" + rest;
    assert MemberText(m) + "}" + rest == MemberText(m) + after;
    ParseMemberRoundTrip(m, after);
    assert SkipWhitespace(after) == after;
    assert after[1..] == rest;
  }

  /** Reading one member, then a comma and the members after it. */
  lemma ParseCommaStep(m: Member, more: string, ms: seq<Member>, rest: string)
    requires more != [] && more[0] == '"'
    requires ParseMembers(more) == Some((ms, rest))
    ensures ParseMembers(MemberText(m) + "," + more) == Some(([m] + ms, rest))
  {
    var after := "," + more;
    assert MemberText(m) + "," + more == MemberText(m) + after;
    ParseMemberRoundTrip(m, after);
    assert SkipWhitespace(after) == after;
    assert after[1..] == more;
    SkipNoWhitespace(more);
  }

  lemma {:induction false} ParseMembersRoundTrip(o: Object, rest: string)
    requires o != []
    ensures ParseMembers(MembersText(o) + "}" + rest) == Some((o, rest))
  {
    if |o| == 1 {
      assert MembersText(o) == MemberText(o[0]);
      ParseLastMemberStep(o[0], rest);
      assert [o[0]] == o;
    } else {
      var more := MembersText(o[1..]) + "}" + rest;
      assert MembersText(o) + "}" + rest == MemberText(o[0]) + "," + more;
      ParseMembersRoundTrip(o[1..], rest);
      MembersTextStartsWithQuote(o[1..]);
      ParseCommaStep(o[0], more, o[1..], rest);
      assert [o[0]] + o[1..] == o;
    }
  }

  lemma MembersTextStartsWithQuote(o: Object)
    requires o != []
    ensures MembersText(o) != [] && MembersText(o)[0] == '"'
  {
    assert MemberText(o[0])[0] == '"';
  }

  lemma SkipNoWhitespace(s: string)
    requires s != [] && !IsJsonWhitespace(s[0])
    ensures SkipWhitespace(s) == s
  {
  }

  /** `JSON.parse` of a brace followed by members it reads to the end of the text. */
  lemma ParseBraced(text: string, body: string, ms: seq<Member>)
    requires text == "{" + body
    requires body != [] && body[0] == '"'
    requires ParseMembers(body) == Some((ms, ""))
    ensures Parse(text) == Some(Build([], ms))
  {
    SkipNoWhitespace(text);
    assert text[1..] == body;
    SkipNoWhitespace(body);
  }

  /** `JSON.parse("{}")` is the empty object. */
  lemma ParseEmptyObject()
    ensures Parse("{}") == Some([])
  {
    var text := "{}";
    SkipNoWhitespace(text);
    assert text[1..] == "}";
    SkipNoWhitespace(text[1..]);
    assert text[1..][1..] == "";
  }

  lemma SerializeNonEmptyRoundTrip(o: Object)
    requires o != [] && DistinctKeys(o)
    ensures Parse(Serialize(o)) == Some(o)
  {
    var m := MembersText(o);
    var body := m + "}";
    MembersTextStartsWithQuote(o);
    assert body[0] == '"';
    ParseMembersRoundTrip(o, "");
    assert m + "}" + "" == body;
    assert ParseMembers(body) == Some((o, ""));
    assert Serialize(o) == "{" + body;
    BuildAppends([], o);
    assert [] + o == o;
    ParseBraced(Serialize(o), body, o);
  }

  /** What `JSON.stringify` writes, `JSON.parse` reads back unchanged. */
  lemma SerializeRoundTrip(o: Object)
    requires DistinctKeys(o)
    ensures Parse(Serialize(o)) == Some(o)
  {
    if o == [] {
      assert Serialize(o) == "{}";
      ParseEmptyObject();
    } else {
      SerializeNonEmptyRoundTrip(o);
    }
  }
}
