/** String literals: printing them, delimiting them in the source text and splitting them into
    literal and interpolated parts. */
module Literals {
  import opened Wrappers
  import opened Ast

  /** How interpolated expressions are printed and read back. */
  datatype Codec = Codec(show: Expr -> string, read: string -> Option<Expr>)

  // ---------- printing ----------

  function Escape(c: char): string {
    match c
    case '"' => "\\\""
    case '\\' => "\\\\"
    case '\n' => "\\n"
    case '\t' => "\\t"
    case '{' => "{{"
    case '}' => "}}"
    case _ => [c]
  }

  function EscapeAll(s: string): string {
    if s == "" then "" else Escape(s[0]) + EscapeAll(s[1..])
  }

  function PrintPart(cd: Codec, p: StrPart): string {
    match p
    case Lit(text) => EscapeAll(text)
    case Interp(e) => "{" + cd.show(e) + "}"
  }

  function PrintParts(cd: Codec, parts: seq<StrPart>): string {
    if parts == [] then "" else PrintPart(cd, parts[0]) + PrintParts(cd, parts[1..])
  }

  function PrintLiteral(cd: Codec, parts: seq<StrPart>): string {
    "\"" + PrintParts(cd, parts) + "\""
  }

  // ---------- finding the closing quote ----------

  /** How far a string literal reaches: the number of characters before its closing quote, or before
      the end of the text when there is none. */
  function Body(s: string, escaped: bool): nat {
    if s == "" then 0
    else if s[0] == '\\' && !escaped then 1 + Body(s[1..], true)
    else if s[0] == '"' && !escaped then 0
    else 1 + Body(s[1..], false)
  }

  lemma {:induction false} BodyInside(s: string, escaped: bool)
    ensures Body(s, escaped) <= |s|
  {
    if s != "" { BodyInside(s[1..], s[0] == '\\' && !escaped); }
  }

  class Lexer {
    const src: string
    var pos: nat
    var errors: nat

    constructor (src: string, start: nat)
      requires start <= |src|
      ensures this.src == src && pos == start && errors == 0
    {
      this.src := src;
      pos := start;
      errors := 0;
    }

    /** From the opening quote at `pos` to just past the closing one; the text in between is the
        token, and a missing closing quote is an error. */
    method LexString() returns (raw: string)
      requires pos < |src|
      modifies this
      ensures var body := Body(src[old(pos) + 1..], false);
              && body <= |src| - old(pos) - 1
              && raw == src[old(pos) + 1..][..body]
              && (if old(pos) + 1 + body < |src| then pos == old(pos) + 2 + body && errors == old(errors)
                  else pos == |src| && errors == old(errors) + 1)
    {
      var start := pos + 1;
      pos := start;
      var escaped := false;
      BodyInside(src[start..], false);
      while pos < |src| && (escaped || src[pos] != '"')
        invariant start <= pos <= |src| && errors == old(errors)
        invariant Body(src[start..], false) == (pos - start) + Body(src[pos..], escaped)
      {
        assert src[pos..][0] == src[pos] && src[pos..][1..] == src[pos + 1..];
        escaped := src[pos] == '\\' && !escaped;
        pos := pos + 1;
      }
      raw := src[start..pos];
      assert raw == src[start..][..pos - start];
      if pos < |src| {
        assert src[pos..][0] == src[pos];
        pos := pos + 1;
      } else {
        errors := errors + 1;
      }
    }
  }

  // ---------- splitting ----------

  /** The code of an interpolation, up to the brace that closes it, and what follows. */
  function Hole(s: string, depth: nat): (string, string)
    requires depth > 0
    ensures |Hole(s, depth).1| <= |s|
  {
    if s == "" then ("", "")
    else if s[0] == '{' then
      var r := Hole(s[1..], depth + 1);
      ("{" + r.0, r.1)
    else if s[0] == '}' then
      if depth == 1 then ("", s[1..])
      else
        var r := Hole(s[1..], depth - 1);
        ("}" + r.0, r.1)
    else
      var r := Hole(s[1..], depth);
      ([s[0]] + r.0, r.1)
  }

  function Unescape(c: char): char {
    match c case 'n' => '\n' case 't' => '\t' case 'r' => '\r' case _ => c
  }

  /** The parts found, and how many interpolations could not be read. */
  datatype Split = Split(parts: seq<StrPart>, errors: nat)

  function Flush(parts: seq<StrPart>, lit: string): seq<StrPart> {
    if lit != "" then parts + [Lit(lit)] else parts
  }

  function SplitFrom(cd: Codec, s: string, lit: string, done: Split): Split
    decreases |s|
  {
    if s == "" then
      Split(if lit != "" || done.parts == [] then done.parts + [Lit(lit)] else done.parts, done.errors)
    else if s[0] == '{' && |s| > 1 && s[1] == '{' then SplitFrom(cd, s[2..], lit + "{", done)
    else if s[0] == '}' && |s| > 1 && s[1] == '}' then SplitFrom(cd, s[2..], lit + "}", done)
    else if s[0] == '{' then
      var h := Hole(s[1..], 1);
      SplitFrom(cd, h.1, "", AddHole(cd, h.0, lit, done))
    else if s[0] == '\\' then
      if |s| > 1 then SplitFrom(cd, s[2..], lit + [Unescape(s[1])], done) else SplitFrom(cd, s[1..], lit, done)
    else SplitFrom(cd, s[1..], lit + [s[0]], done)
  }

  function AddHole(cd: Codec, code: string, lit: string, done: Split): Split {
    var e := cd.read(code);
    if e.Some? then Split(Flush(done.parts, lit) + [Interp(e.value)], done.errors)
    else Split(Flush(done.parts, lit), done.errors + 1)
  }

  function SplitLiteral(cd: Codec, raw: string): Split {
    SplitFrom(cd, raw, "", Split([], 0))
  }

  /** The text between `{` and the `}` that belongs to it, or to the end, and where to go on. */
  method ReadHole(raw: string, from: nat) returns (inner: string, i: nat)
    requires from <= |raw|
    ensures from <= i <= |raw| && (inner, raw[i..]) == Hole(raw[from..], 1)
  {
    var depth: nat := 1;
    inner, i := "", from;
    assert "" + Hole(raw[i..], 1).0 == Hole(raw[i..], 1).0;
    while i < |raw| && depth > 0
      invariant from <= i <= |raw|
      invariant Hole(raw[from..], 1) == Ahead(inner, raw[i..], depth)
    {
      assert raw[i..][0] == raw[i] && raw[i..][1..] == raw[i + 1..];
      AheadStep(inner, raw[i..], depth);
      if raw[i] == '{' {
        depth := depth + 1;
        inner := inner + "{";
      } else if raw[i] == '}' {
        depth := depth - 1;
        if depth > 0 { inner := inner + "}"; }
      } else {
        inner := inner + [raw[i]];
      }
      i := i + 1;
    }
    assert i == |raw| ==> raw[i..] == "" && inner + "" == inner;
  }

  /** What a hole comes to after `inner` has been read, `depth` braces deep. */
  ghost function Ahead(inner: string, s: string, depth: nat): (string, string) {
    if depth == 0 then (inner, s) else (inner + Hole(s, depth).0, Hole(s, depth).1)
  }

  lemma AheadStep(inner: string, s: string, depth: nat)
    requires s != "" && depth > 0
    ensures Ahead(inner, s, depth)
         == if s[0] == '{' then Ahead(inner + "{", s[1..], depth + 1)
            else if s[0] == '}' then Ahead(if depth > 1 then inner + "}" else inner, s[1..], depth - 1)
            else Ahead(inner + [s[0]], s[1..], depth)
  {
    if s[0] == '{' {
      assert inner + ("{" + Hole(s[1..], depth + 1).0) == (inner + "{") + Hole(s[1..], depth + 1).0;
    } else if s[0] == '}' {
      if depth > 1 {
        assert inner + ("}" + Hole(s[1..], depth - 1).0) == (inner + "}") + Hole(s[1..], depth - 1).0;
      } else {
        assert inner + "" == inner;
      }
    } else {
      assert inner + ([s[0]] + Hole(s[1..], depth).0) == (inner + [s[0]]) + Hole(s[1..], depth).0;
    }
  }

  /** The splitting as the parser does it, with an index into the text. */
  method ParseStrParts(cd: Codec, raw: string) returns (r: Split)
    ensures r == SplitLiteral(cd, raw)
  {
    var parts: seq<StrPart>, errors, lit, i := [], 0, "", 0;
    while i < |raw|
      invariant 0 <= i <= |raw|
      invariant SplitFrom(cd, raw[i..], lit, Split(parts, errors)) == SplitLiteral(cd, raw)
    {
      var c := raw[i];
      assert raw[i..][0] == c && raw[i..][1..] == raw[i + 1..];
      assert i + 1 < |raw| ==> raw[i..][1] == raw[i + 1] && raw[i..][2..] == raw[i + 2..];
      if c == '{' && i + 1 < |raw| && raw[i + 1] == '{' {
        lit := lit + "{";
        i := i + 2;
      } else if c == '}' && i + 1 < |raw| && raw[i + 1] == '}' {
        lit := lit + "}";
        i := i + 2;
      } else if c == '{' {
        parts := Flush(parts, lit);
        lit := "";
        var inner: string;
        inner, i := ReadHole(raw, i + 1);
        var e := cd.read(inner);
        match e {
          case Some(x) => parts := parts + [Interp(x)];
          case None => errors := errors + 1;
        }
      } else if c == '\\' {
        i := i + 1;
        if i < |raw| {
          lit := lit + [Unescape(raw[i])];
          i := i + 1;
        }
      } else {
        lit := lit + [c];
        i := i + 1;
      }
    }
    assert raw[i..] == "";
    if lit != "" || parts == [] {
      parts := parts + [Lit(lit)];
    }
    r := Split(parts, errors);
  }

  // ---------- round trip ----------

  /** Braces match up, starting `depth` deep. */
  predicate Balanced(s: string, depth: nat) {
    if s == "" then depth == 0
    else if s[0] == '{' then Balanced(s[1..], depth + 1)
    else if s[0] == '}' then depth > 0 && Balanced(s[1..], depth - 1)
    else Balanced(s[1..], depth)
  }

  /** Neither quotes nor backslashes, so the lexer passes over it. */
  predicate Clean(s: string) {
    forall c | c in s :: c != '"' && c != '\\'
  }

  /** Code that can stand between braces. */
  predicate Embeddable(s: string) {
    Clean(s) && Balanced(s, 0) && (s != "" ==> s[0] != '{')
  }

  ghost predicate ReadsBack(cd: Codec, p: StrPart) {
    p.Interp? ==> cd.read(cd.show(p.e)) == Some(p.e) && Embeddable(cd.show(p.e))
  }

  lemma {:induction false} CleanBody(s: string, rest: string)
    requires Clean(s)
    ensures Body(s + rest, false) == |s| + Body(rest, false)
  {
    if s == "" {
      assert s + rest == rest;
    } else {
      assert (s + rest)[0] == s[0] && (s + rest)[1..] == s[1..] + rest;
      assert s[0] in s && forall c | c in s[1..] :: c in s;
      CleanBody(s[1..], rest);
    }
  }

  lemma {:induction false} EscapedBody(s: string, rest: string)
    ensures Body(EscapeAll(s) + rest, false) == |EscapeAll(s)| + Body(rest, false)
  {
    if s == "" {
      assert EscapeAll(s) + rest == rest;
    } else {
      var tail := EscapeAll(s[1..]) + rest;
      assert EscapeAll(s) + rest == Escape(s[0]) + tail;
      EscapedBody(s[1..], rest);
      OneEscape(s[0], tail);
    }
  }

  lemma OneEscape(c: char, tail: string)
    ensures Body(Escape(c) + tail, false) == |Escape(c)| + Body(tail, false)
  {
    var t := Escape(c) + tail;
    assert |Escape(c)| == 1 ==> t[1..] == tail;
    assert |Escape(c)| == 2 ==> t[1..][0] == Escape(c)[1] && t[1..][1..] == tail;
  }

  lemma {:induction false} PartsBody(cd: Codec, parts: seq<StrPart>, rest: string)
    requires forall p | p in parts :: ReadsBack(cd, p)
    ensures Body(PrintParts(cd, parts) + "\"" + rest, false) == |PrintParts(cd, parts)|
  {
    if parts == [] {
      assert PrintParts(cd, parts) + "\"" + rest == "\"" + rest;
    } else {
      var p := parts[0];
      var tail := PrintParts(cd, parts[1..]) + "\"" + rest;
      assert PrintParts(cd, parts) + "\"" + rest == PrintPart(cd, p) + tail;
      assert p in parts;
      PartsBody(cd, parts[1..], rest);
      match p {
        case Lit(text) => EscapedBody(text, tail);
        case Interp(e) =>
          assert PrintPart(cd, p) == "{" + cd.show(e) + "}";
          CleanBody("{" + cd.show(e) + "}", tail);
      }
    }
  }

  lemma {:induction false} HoleBack(s: string, rest: string, depth: nat)
    requires depth > 0 && Balanced(s, depth - 1)
    ensures Hole(s + "}" + rest, depth) == (s, rest)
  {
    var t := s + "}" + rest;
    if s == "" {
      assert t[0] == '}' && t[1..] == rest;
    } else {
      assert t[0] == s[0] && t[1..] == s[1..] + "}" + rest;
      assert s == [s[0]] + s[1..];
      HoleBack(s[1..], rest, if s[0] == '{' then depth + 1 else if s[0] == '}' then depth - 1 else depth);
    }
  }

  /** One character of a text, which may be escaped. */
  lemma CharBack(cd: Codec, c: char, tail: string, lit: string, done: Split)
    ensures SplitFrom(cd, Escape(c) + tail, lit, done) == SplitFrom(cd, tail, lit + [c], done)
  {
    hide Flush, AddHole;
    var t := Escape(c) + tail;
    if |Escape(c)| == 1 {
      assert t[1..] == tail;
    } else {
      assert t[1] == Escape(c)[1] && t[2..] == tail;
    }
  }

  lemma {:induction false} TextBack(cd: Codec, s: string, rest: string, lit: string, done: Split)
    ensures SplitFrom(cd, EscapeAll(s) + rest, lit, done) == SplitFrom(cd, rest, lit + s, done)
    decreases |s|
  {
    if s == "" {
      assert EscapeAll(s) + rest == rest && lit + s == lit;
    } else {
      assert EscapeAll(s) + rest == Escape(s[0]) + (EscapeAll(s[1..]) + rest);
      CharBack(cd, s[0], EscapeAll(s[1..]) + rest, lit, done);
      hide SplitFrom;
      TextBack(cd, s[1..], rest, lit + [s[0]], done);
      assert lit + s == lit + [s[0]] + s[1..];
    }
  }

  /** What comes back: adjacent texts become one and empty ones vanish. */
  function Merge(parts: seq<StrPart>, lit: string, done: seq<StrPart>): seq<StrPart> {
    if parts == [] then (if lit != "" || done == [] then done + [Lit(lit)] else done)
    else match parts[0]
      case Lit(text) => Merge(parts[1..], lit + text, done)
      case Interp(e) => Merge(parts[1..], "", Flush(done, lit) + [Interp(e)])
  }

  lemma {:induction false} SplitIsMerge(cd: Codec, parts: seq<StrPart>, lit: string, done: Split)
    requires forall p | p in parts :: ReadsBack(cd, p)
    ensures SplitFrom(cd, PrintParts(cd, parts), lit, done) == Split(Merge(parts, lit, done.parts), done.errors)
    decreases |parts|
  {
    if parts != [] {
      var tail := PrintParts(cd, parts[1..]);
      assert parts[0] in parts;
      match parts[0] {
        case Lit(text) =>
          TextBack(cd, text, tail, lit, done);
          SplitIsMerge(cd, parts[1..], lit + text, done);
        case Interp(e) =>
          var code := cd.show(e);
          var t := "{" + code + "}" + tail;
          assert PrintParts(cd, parts) == t;
          assert t[0] == '{' && t[1..] == code + "}" + tail;
          HoleBack(code, tail, 1);
          assert t[1] != '{';
          SplitIsMerge(cd, parts[1..], "", AddHole(cd, code, lit, done));
      }
    }
  }

  /** No empty text, except alone, and no two texts in a row. */
  predicate Normal(parts: seq<StrPart>) {
    parts == [Lit("")]
    || (parts != [] && NoEmpty(parts))
  }

  predicate NoEmpty(parts: seq<StrPart>) {
    && (forall i | 0 <= i < |parts| :: parts[i].Lit? ==> parts[i].text != "")
    && (forall i | 0 < i < |parts| :: !(parts[i - 1].Lit? && parts[i].Lit?))
  }

  lemma {:induction false} MergeNormal(parts: seq<StrPart>, lit: string, done: seq<StrPart>)
    requires NoEmpty(done) && (done != [] ==> done[|done| - 1].Interp?)
    ensures Normal(Merge(parts, lit, done))
    decreases |parts|
  {
    if parts != [] {
      match parts[0] {
        case Lit(text) => MergeNormal(parts[1..], lit + text, done);
        case Interp(e) => MergeNormal(parts[1..], "", Flush(done, lit) + [Interp(e)]);
      }
    }
  }

  lemma {:induction false} NormalMerges(parts: seq<StrPart>, lit: string, done: seq<StrPart>)
    requires NoEmpty(parts) && (lit != "" && parts != [] ==> parts[0].Interp?)
             && (parts == [] && lit == "" ==> done != [])
    ensures Merge(parts, lit, done) == Flush(done, lit) + parts
    decreases |parts|
  {
    if parts == [] {
      assert Flush(done, lit) + parts == Flush(done, lit);
    } else {
      assert NoEmpty(parts[1..]) by {
        forall i | 0 < i < |parts[1..]| ensures !(parts[1..][i - 1].Lit? && parts[1..][i].Lit?) {
          assert parts[1..][i - 1] == parts[i] && parts[1..][i] == parts[i + 1];
          assert !(parts[i + 1 - 1].Lit? && parts[i + 1].Lit?);
        }
      }
      if |parts| > 1 { assert !(parts[1 - 1].Lit? && parts[1].Lit?); }
      match parts[0] {
        case Lit(text) =>
          assert lit + text == text;
          NormalMerges(parts[1..], text, done);
          assert Flush(done, text) + parts[1..] == Flush(done, lit) + parts;
        case Interp(e) =>
          NormalMerges(parts[1..], "", Flush(done, lit) + [Interp(e)]);
          assert Flush(Flush(done, lit) + [Interp(e)], "") + parts[1..] == Flush(done, lit) + parts;
      }
    }
  }

  /** A printed literal is delimited exactly, and splits back into the same parts exactly when those
      are normalized. */
  lemma LiteralRoundTrip(cd: Codec, parts: seq<StrPart>, rest: string)
    requires forall p | p in parts :: ReadsBack(cd, p)
    ensures var text := PrintLiteral(cd, parts) + rest;
            var body := Body(text[1..], false);
            && text[0] == '"' && body < |text[1..]| && text[1..][body] == '"' && text[1..][body + 1..] == rest
            && (SplitLiteral(cd, text[1..][..body]) == Split(parts, 0) <==> Normal(parts))
  {
    var text := PrintLiteral(cd, parts) + rest;
    var inner := PrintParts(cd, parts);
    assert text[1..] == inner + "\"" + rest;
    PartsBody(cd, parts, rest);
    assert text[1..][..|inner|] == inner;
    SplitIsMerge(cd, parts, "", Split([], 0));
    MergeNormal(parts, "", []);
    if Normal(parts) && parts != [Lit("")] {
      NormalMerges(parts, "", []);
    }
    if parts == [Lit("")] { assert parts[1..] == [] && "" + "" == ""; }
  }
}
