/**
 Recovery of one JSON object from surrounding model output
 (src/voxera/brain/json_recovery.py).
 */
module JsonRecovery {
  import opened Text
  import opened Wrappers

  // ----- reading characters

  /** What the scanner remembers between characters. */
  datatype Reader = Reader(depth: int, inString: bool, escape: bool)

  const START := Reader(0, false, false)

  function Outside(depth: int): Reader { Reader(depth, false, false) }

  function Inside(depth: int): Reader { Reader(depth, true, false) }

  function Next(r: Reader, ch: char): Reader
  {
    if r.inString then
      if r.escape then r.(escape := false)
      else if ch == '\\' then r.(escape := true)
      else if ch == '"' then r.(inString := false)
      else r
    else if ch == '"' then r.(inString := true)
    else if ch == '{' then r.(depth := r.depth + 1)
    else if ch == '}' then r.(depth := r.depth - 1)
    else r
  }

  function After(s: string, r: Reader): Reader
  {
    if s == [] then r else After(s[1..], Next(r, s[0]))
  }

  /** As many closing as opening braces outside string literals. */
  predicate Balanced(s: string)
  {
    After(s, START).depth == 0
  }

  function FirstBrace(s: string): (n: nat)
    ensures n <= |s|
    ensures forall i :: 0 <= i < n ==> s[i] != '{'
    ensures n < |s| ==> s[n] == '{'
  {
    if s == [] || s[0] == '{' then 0 else 1 + FirstBrace(s[1..])
  }

  /** The length, at least `n`, of the shortest balanced prefix of `s`. */
  function ShortestFrom(s: string, n: nat): (r: Option<nat>)
    ensures r.Some? ==> n <= r.value <= |s| && Balanced(s[..r.value])
    ensures r.Some? ==> forall k :: n <= k < r.value ==> !Balanced(s[..k])
    ensures r.None? ==> forall k :: n <= k <= |s| ==> !Balanced(s[..k])
    decreases |s| - n
  {
    if n > |s| then None
    else if Balanced(s[..n]) then Some(n)
    else ShortestFrom(s, n + 1)
  }

  /** The shortest non-empty balanced slice that starts at the first opening brace. */
  function FirstObject(text: string): Option<string>
  {
    var rest := text[FirstBrace(text)..];
    match ShortestFrom(rest, 1)
    case None => None
    case Some(n) => if rest == [] then None else Some(rest[..n])
  }

  lemma {:induction false} AfterConcat(a: string, b: string, r: Reader)
    ensures After(a + b, r) == After(b, After(a, r))
  {
    if a == [] {
      assert a + b == b;
    } else {
      assert (a + b)[1..] == a[1..] + b;
      AfterConcat(a[1..], b, Next(r, a[0]));
    }
  }

  lemma AfterSnoc(s: string, k: nat, r: Reader)
    requires k < |s|
    ensures After(s[..k + 1], r) == Next(After(s[..k], r), s[k])
  {
    assert s[..k + 1] == s[..k] + [s[k]];
    AfterConcat(s[..k], [s[k]], r);
  }

  /** The single pass over the text that the source makes. */
  method ExtractFirstBalancedObject(text: string) returns (found: Option<string>)
    ensures found == FirstObject(text)
  {
    var start := FirstBrace(text);
    if start == |text| {
      return None;
    }
    ghost var rest := text[start..];
    var depth, inString, escape := 0, false, false;
    for idx := start to |text|
      invariant Reader(depth, inString, escape) == After(rest[..idx - start], START)
      invariant if idx == start then depth == 0 && !inString && !escape else depth >= 1
      invariant ShortestFrom(rest, 1) == ShortestFrom(rest, if idx == start then 1 else idx - start + 1)
    {
      var ch := text[idx];
      AfterSnoc(rest, idx - start, START);
      if inString {
        if escape {
          escape := false;
        } else if ch == '\\' {
          escape := true;
        } else if ch == '"' {
          inString := false;
        }
        continue;
      }
      if ch == '"' {
        inString := true;
      } else if ch == '{' {
        depth := depth + 1;
      } else if ch == '}' {
        depth := depth - 1;
        if depth == 0 {
          assert rest[..idx - start + 1] == text[start..idx + 1];
          return Some(text[start..idx + 1]);
        }
      }
    }
    return None;
  }

  /** What is extracted is a slice from the first brace, balanced, and has no balanced proper prefix. */
  lemma ExtractedIsShortest(text: string)
    ensures match FirstObject(text)
            case None => forall k :: 1 <= k <= |text| - FirstBrace(text) ==>
              !Balanced(text[FirstBrace(text)..][..k])
            case Some(s) =>
              && s != [] && s <= text[FirstBrace(text)..] && s[0] == '{' && Balanced(s)
              && forall k :: 1 <= k < |s| ==> !Balanced(s[..k])
  {
    var rest := text[FirstBrace(text)..];
    match FirstObject(text)
    case None =>
    case Some(s) =>
      forall k | 1 <= k < |s| ensures !Balanced(s[..k]) {
        assert s[..k] == rest[..k];
      }
  }

  /** Extracting again from an extracted object returns it whole. */
  lemma ExtractIsIdempotent(text: string)
    requires FirstObject(text).Some?
    ensures FirstObject(FirstObject(text).value) == FirstObject(text)
  {
    ExtractedIsShortest(text);
    var s := FirstObject(text).value;
    assert FirstBrace(s) == 0 && s[0..] == s;
    assert s[..|s|] == s;
  }

  // ----- JSON text, RFC 8259 sections 2 to 7

  /** One character of a string literal: itself, a two-character escape, or \uXXXX (section 7). */
  datatype Char = Raw(c: char) | Short(c: char) | Unicode(hex: string)

  /** A value as it is written, white space included. */
  datatype Value =
    | Scalar(lexeme: string)
    | Quoted(chars: seq<Char>)
    | Array(gap: string, elements: seq<Padded>)
    | Object(gap: string, members: seq<Member>)

  datatype Padded = Padded(before: string, value: Value, after: string)

  datatype Member = Member(before: string, key: seq<Char>, middle: string, content: Padded)

  predicate Blank(s: string)
  {
    forall i :: 0 <= i < |s| ==> s[i] == ' ' || s[i] == '\t' || s[i] == '\n' || s[i] == '\r'
  }

  predicate WellFormedChar(ch: Char)
  {
    match ch
    case Raw(c) => c >= ' ' && c != '"' && c != '\\'
    case Short(c) => c in {'"', '\\', '/', 'b', 'f', 'n', 'r', 't'}
    case Unicode(hex) => |hex| == 4 && forall i :: 0 <= i < |hex| ==> IsHex(hex[i])
  }

  predicate IsHex(c: char)
  {
    '0' <= c <= '9' || 'a' <= c <= 'f' || 'A' <= c <= 'F'
  }

  predicate IsNumberChar(c: char)
  {
    '0' <= c <= '9' || c == '+' || c == '-' || c == '.' || c == 'e' || c == 'E'
  }

  predicate WellFormedChars(cs: seq<Char>)
  {
    forall c :: c in cs ==> WellFormedChar(c)
  }

  /** The three literal names, or characters that numbers are made of. */
  predicate WellFormedScalar(s: string)
  {
    s == "true" || s == "false" || s == "null" || forall i :: 0 <= i < |s| ==> IsNumberChar(s[i])
  }

  predicate WellFormed(v: Value)
  {
    match v
    case Scalar(lexeme) => WellFormedScalar(lexeme)
    case Quoted(chars) => WellFormedChars(chars)
    case Array(gap, elements) => Blank(gap) && forall e :: e in elements ==> WellFormedPadded(e)
    case Object(gap, members) => Blank(gap) && forall m :: m in members ==> WellFormedMember(m)
  }

  predicate WellFormedPadded(p: Padded)
  {
    Blank(p.before) && WellFormed(p.value) && Blank(p.after)
  }

  predicate WellFormedMember(m: Member)
  {
    Blank(m.before) && WellFormedChars(m.key) && Blank(m.middle) && WellFormedPadded(m.content)
  }

  function PrintChar(ch: Char): string
  {
    match ch
    case Raw(c) => [c]
    case Short(c) => ['\\', c]
    case Unicode(hex) => ['\\', 'u'] + hex
  }

  function PrintChars(cs: seq<Char>): string
  {
    if cs == [] then [] else PrintChar(cs[0]) + PrintChars(cs[1..])
  }

  function PrintQuoted(cs: seq<Char>): string
  {
    "\"" + PrintChars(cs) + "\""
  }

  function Print(v: Value): string
  {
    match v
    case Scalar(lexeme) => lexeme
    case Quoted(chars) => PrintQuoted(chars)
    case Array(gap, elements) => "[" + gap + PrintElements(elements) + "]"
    case Object(gap, members) => "{" + (gap + PrintMembers(members)) + "}"
  }

  /** An object without its outer braces. */
  function PrintBody(v: Value): string
    requires v.Object?
  {
    v.gap + PrintMembers(v.members)
  }

  function PrintPadded(p: Padded): string
  {
    p.before + Print(p.value) + p.after
  }

  function PrintMember(m: Member): string
  {
    m.before + PrintQuoted(m.key) + m.middle + ":" + PrintPadded(m.content)
  }

  function PrintElements(es: seq<Padded>): string
  {
    if es == [] then []
    else if |es| == 1 then PrintPadded(es[0])
    else PrintPadded(es[0]) + "," + PrintElements(es[1..])
  }

  function PrintMembers(ms: seq<Member>): string
  {
    if ms == [] then []
    else if |ms| == 1 then PrintMember(ms[0])
    else PrintMember(ms[0]) + "," + PrintMembers(ms[1..])
  }

  // ----- printed text leaves the scanner where it found it

  /** Reading `s` takes `a` to `b` and never closes the outermost object. */
  predicate Passes(s: string, a: Reader, b: Reader)
  {
    a.depth >= 1 && if s == [] then a == b else Passes(s[1..], Next(a, s[0]), b)
  }

  lemma {:induction false} PassesJoin(s: string, t: string, a: Reader, b: Reader, c: Reader)
    requires Passes(s, a, b) && Passes(t, b, c)
    ensures Passes(s + t, a, c)
  {
    if s == [] {
      assert s + t == t;
    } else {
      assert (s + t)[1..] == s[1..] + t;
      PassesJoin(s[1..], t, Next(a, s[0]), b, c);
    }
  }

  lemma {:induction false} PassesMeansAfter(s: string, a: Reader, b: Reader, k: nat)
    requires Passes(s, a, b) && k <= |s|
    ensures After(s[..k], a).depth >= 1
    ensures After(s, a) == b
  {
    if s != [] {
      PassesMeansAfter(s[1..], Next(a, s[0]), b, if k == 0 then 0 else k - 1);
      if k > 0 {
        assert s[..k][1..] == s[1..][..k - 1];
      }
    }
  }

  /** No character that means anything outside a string literal. */
  predicate Plain(s: string)
  {
    forall i :: 0 <= i < |s| ==> s[i] != '"' && s[i] != '{' && s[i] != '}'
  }

  lemma {:induction false} PlainPasses(s: string, d: int)
    requires d >= 1 && Plain(s)
    ensures Passes(s, Outside(d), Outside(d))
  {
    if s != [] {
      PlainPasses(s[1..], d);
    }
  }

  lemma {:induction false} HexPasses(hex: string, d: int)
    requires d >= 1 && forall i :: 0 <= i < |hex| ==> IsHex(hex[i])
    ensures Passes(hex, Inside(d), Inside(d))
  {
    if hex != [] {
      HexPasses(hex[1..], d);
    }
  }

  lemma CharPasses(ch: Char, d: int)
    requires d >= 1 && WellFormedChar(ch)
    ensures Passes(PrintChar(ch), Inside(d), Inside(d))
  {
    match ch
    case Raw(c) =>
    case Short(c) =>
      assert ['\\', c][1..] == [c];
      assert Passes([c], Reader(d, true, true), Inside(d));
    case Unicode(hex) =>
      assert ['\\', 'u'][1..] == ['u'];
      assert Passes(['u'], Reader(d, true, true), Inside(d));
      assert Passes(['\\', 'u'], Inside(d), Inside(d));
      HexPasses(hex, d);
      PassesJoin(['\\', 'u'], hex, Inside(d), Inside(d), Inside(d));
  }

  lemma {:induction false} CharsPass(cs: seq<Char>, d: int)
    requires d >= 1 && WellFormedChars(cs)
    ensures Passes(PrintChars(cs), Inside(d), Inside(d))
  {
    if cs != [] {
      CharPasses(cs[0], d);
      CharsPass(cs[1..], d);
      PassesJoin(PrintChar(cs[0]), PrintChars(cs[1..]), Inside(d), Inside(d), Inside(d));
    }
  }

  lemma QuotedPasses(cs: seq<Char>, d: int)
    requires d >= 1 && WellFormedChars(cs)
    ensures Passes(PrintQuoted(cs), Outside(d), Outside(d))
  {
    CharsPass(cs, d);
    PassesJoin("\"", PrintChars(cs), Outside(d), Inside(d), Inside(d));
    PassesJoin("\"" + PrintChars(cs), "\"", Outside(d), Inside(d), Outside(d));
  }

  lemma {:induction false} ValuePasses(v: Value, d: int)
    requires d >= 1 && WellFormed(v)
    ensures Passes(Print(v), Outside(d), Outside(d))
    decreases v, 1
  {
    var o := Outside(d);
    match v
    case Scalar(lexeme) => PlainPasses(lexeme, d);
    case Quoted(chars) => QuotedPasses(chars, d);
    case Array(gap, elements) =>
      ElementsPass(elements, d);
      Bracketed(gap, PrintElements(elements), d);
    case Object(gap, members) =>
      BodyPasses(v, d + 1);
      PassesJoin("{", PrintBody(v), o, Outside(d + 1), Outside(d + 1));
      PassesJoin("{" + PrintBody(v), "}", o, Outside(d + 1), o);
  }

  lemma Bracketed(gap: string, inner: string, d: int)
    requires d >= 1 && Blank(gap) && Passes(inner, Outside(d), Outside(d))
    ensures Passes("[" + gap + inner + "]", Outside(d), Outside(d))
  {
    var o := Outside(d);
    PlainPasses("[" + gap, d);
    PassesJoin("[" + gap, inner, o, o, o);
    PassesJoin("[" + gap + inner, "]", o, o, o);
  }

  lemma {:induction false} BodyPasses(v: Value, d: int)
    requires d >= 1 && v.Object? && WellFormed(v)
    ensures Passes(PrintBody(v), Outside(d), Outside(d))
    decreases v, 0
  {
    PlainPasses(v.gap, d);
    MembersPass(v.members, d);
    PassesJoin(v.gap, PrintMembers(v.members), Outside(d), Outside(d), Outside(d));
  }

  lemma {:induction false} PaddedPasses(p: Padded, d: int)
    requires d >= 1 && WellFormedPadded(p)
    ensures Passes(PrintPadded(p), Outside(d), Outside(d))
    decreases p
  {
    var o := Outside(d);
    PlainPasses(p.before, d);
    ValuePasses(p.value, d);
    PlainPasses(p.after, d);
    PassesJoin(p.before, Print(p.value), o, o, o);
    PassesJoin(p.before + Print(p.value), p.after, o, o, o);
  }

  lemma {:induction false} ElementsPass(es: seq<Padded>, d: int)
    requires d >= 1 && forall e :: e in es ==> WellFormedPadded(e)
    ensures Passes(PrintElements(es), Outside(d), Outside(d))
    decreases es
  {
    var o := Outside(d);
    if es != [] {
      PaddedPasses(es[0], d);
      if |es| > 1 {
        ElementsPass(es[1..], d);
        PassesJoin(PrintPadded(es[0]), ",", o, o, o);
        PassesJoin(PrintPadded(es[0]) + ",", PrintElements(es[1..]), o, o, o);
      }
    }
  }

  lemma {:induction false} MembersPass(ms: seq<Member>, d: int)
    requires d >= 1 && forall m :: m in ms ==> WellFormedMember(m)
    ensures Passes(PrintMembers(ms), Outside(d), Outside(d))
    decreases ms
  {
    var o := Outside(d);
    if ms != [] {
      MemberPasses(ms[0], d);
      if |ms| > 1 {
        MembersPass(ms[1..], d);
        PassesJoin(PrintMember(ms[0]), ",", o, o, o);
        PassesJoin(PrintMember(ms[0]) + ",", PrintMembers(ms[1..]), o, o, o);
      }
    }
  }

  lemma {:induction false} MemberPasses(m: Member, d: int)
    requires d >= 1 && WellFormedMember(m)
    ensures Passes(PrintMember(m), Outside(d), Outside(d))
    decreases m
  {
    var o := Outside(d);
    PlainPasses(m.before, d);
    QuotedPasses(m.key, d);
    PlainPasses(m.middle + ":", d);
    PaddedPasses(m.content, d);
    PassesJoin(m.before, PrintQuoted(m.key), o, o, o);
    PassesJoin(m.before + PrintQuoted(m.key), m.middle + ":", o, o, o);
    PassesJoin(m.before + PrintQuoted(m.key) + (m.middle + ":"), PrintPadded(m.content), o, o, o);
    assert PrintMember(m) == m.before + PrintQuoted(m.key) + (m.middle + ":") + PrintPadded(m.content);
  }

  /** A printed object is balanced and none of its proper prefixes is. */
  lemma PrintedObjectIsShortest(v: Value)
    requires v.Object? && WellFormed(v)
    ensures Balanced(Print(v))
    ensures forall k :: 1 <= k < |Print(v)| ==> !Balanced(Print(v)[..k])
  {
    var body := PrintBody(v);
    var s := Print(v);
    BodyPasses(v, 1);
    PassesMeansAfter(body, Outside(1), Outside(1), 0);
    AfterConcat("{", body, START);
    assert After("{", START) == Outside(1);
    AfterConcat("{" + body, "}", START);
    assert After("}", Outside(1)) == Outside(0);
    forall k | 1 <= k < |s| ensures !Balanced(s[..k]) {
      assert s[..k] == "{" + body[..k - 1];
      AfterConcat("{", body[..k - 1], START);
      PassesMeansAfter(body, Outside(1), Outside(1), k - 1);
    }
  }

  lemma {:induction false} FirstBraceAfterNoise(noise: string, rest: string)
    requires '{' !in noise
    requires rest != [] && rest[0] == '{'
    ensures FirstBrace(noise + rest) == |noise|
  {
    if noise == [] {
      assert noise + rest == rest;
    } else {
      assert (noise + rest)[1..] == noise[1..] + rest;
      FirstBraceAfterNoise(noise[1..], rest);
    }
  }

  /** Exactly the printed object is recovered, whatever surrounds it. */
  lemma PrintedObjectIsExtracted(before: string, v: Value, after: string)
    requires '{' !in before
    requires v.Object? && WellFormed(v)
    ensures FirstObject(before + Print(v) + after) == Some(Print(v))
  {
    var s := Print(v);
    var text := before + s + after;
    assert text == before + (s + after);
    FirstBraceAfterNoise(before, s + after);
    var rest := text[|before|..];
    assert rest == s + after;
    PrintedObjectIsShortest(v);
    var r := ShortestFrom(rest, 1);
    assert rest[..|s|] == s;
    forall k | 1 <= k < |s| ensures !Balanced(rest[..k]) {
      assert rest[..k] == s[..k];
    }
    assert r.Some?;
  }

  // ----- the whole recovery

  datatype Recovered<+J> = Unrecovered | AsIs(parsed: J) | Unfenced(parsed: J) | Extracted(parsed: J)

  /**
   `parse` stands for JSON parsing restricted to objects and `fenced` for the contents of a Markdown
   code fence; the source calls library code for both.
   */
  function RecoverJsonObject<J>(raw: string, parse: string -> Option<J>, fenced: string -> Option<string>): Recovered<J>
  {
    var stripped := Strip(raw);
    if stripped == [] then Unrecovered
    else if parse(stripped).Some? then AsIs(parse(stripped).value)
    else
      match fenced(stripped)
      case Some(inner) =>
        if parse(inner).Some? then Unfenced(parse(inner).value)
        else if ExtractedParse(inner, parse).Some? then Extracted(ExtractedParse(inner, parse).value)
        else RecoverFrom(stripped, parse)
      case None => RecoverFrom(stripped, parse)
  }

  function ExtractedParse<J>(text: string, parse: string -> Option<J>): Option<J>
  {
    match FirstObject(text)
    case None => None
    case Some(s) => parse(s)
  }

  function RecoverFrom<J>(text: string, parse: string -> Option<J>): Recovered<J>
  {
    match ExtractedParse(text, parse)
    case None => Unrecovered
    case Some(j) => Extracted(j)
  }

  lemma {:induction false} StripLeftKeepsCore(noise: string, core: string)
    requires core != [] && !IsSpace(core[0])
    ensures |StripLeft(noise + core)| >= |core|
    ensures exists p :: StripLeft(noise + core) == p + core && p <= StripLeft(noise + core) && (forall c :: c in p ==> c in noise)
  {
    if noise != [] && IsSpace(noise[0]) {
      assert (noise + core)[1..] == noise[1..] + core;
      StripLeftKeepsCore(noise[1..], core);
    } else if noise == [] {
      assert StripLeft(noise + core) == [] + core;
    } else {
      assert StripLeft(noise + core) == noise + core;
    }
  }

  lemma {:induction false} StripRightKeepsCore(core: string, noise: string)
    requires core != [] && !IsSpace(core[|core| - 1])
    ensures exists q :: StripRight(core + noise) == core + q
  {
    if noise != [] && IsSpace(noise[|noise| - 1]) {
      assert (core + noise)[..|core + noise| - 1] == core + noise[..|noise| - 1];
      StripRightKeepsCore(core, noise[..|noise| - 1]);
    } else if noise == [] {
      assert core + noise == core;
      assert StripRight(core + noise) == core + [];
    } else {
      assert StripRight(core + noise) == core + noise;
    }
  }

  /**
   A printed object amid noise (no fence, no earlier brace) is recovered whenever the parser accepts it,
   unless the whole text already parses.
   */
  lemma PrintedObjectIsRecovered<J>(before: string, v: Value, after: string,
                                    parse: string -> Option<J>, fenced: string -> Option<string>)
    requires '{' !in before
    requires v.Object? && WellFormed(v)
    requires fenced(Strip(before + Print(v) + after)).None?
    ensures var raw := before + Print(v) + after;
            RecoverJsonObject(raw, parse, fenced) ==
              if parse(Strip(raw)).Some? then AsIs(parse(Strip(raw)).value)
              else if parse(Print(v)).Some? then Extracted(parse(Print(v)).value)
              else Unrecovered
  {
    var s := Print(v);
    var raw := before + s + after;
    assert raw == before + (s + after);
    StripLeftKeepsCore(before, s + after);
    var p :| StripLeft(raw) == p + (s + after) && p <= StripLeft(raw) && forall c :: c in p ==> c in before;
    assert StripLeft(raw) == (p + s) + after;
    StripRightKeepsCore(p + s, after);
    var q :| StripRight((p + s) + after) == (p + s) + q;
    assert Strip(raw) == p + s + q;
    PrintedObjectIsExtracted(p, v, q);
  }

  /** A fence that holds a printed object gives the whole of what it holds if that parses, and otherwise that object. */
  lemma FencedObjectIsRecovered<J>(raw: string, before: string, v: Value, after: string, parse: string -> Option<J>,
                                   fenced: string -> Option<string>)
    requires '{' !in before && v.Object? && WellFormed(v) && parse(Print(v)).Some?
    requires Strip(raw) != [] && parse(Strip(raw)).None? && fenced(Strip(raw)) == Some(before + Print(v) + after)
    ensures var inner := before + Print(v) + after;
            RecoverJsonObject(raw, parse, fenced) ==
            if parse(inner).Some? then Unfenced(parse(inner).value) else Extracted(parse(Print(v)).value)
  {
    hide FirstObject, Print, WellFormed, Strip;
    PrintedObjectIsExtracted(before, v, after);
  }
}
