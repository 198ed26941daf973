/**
  The token cursor of src/c/json.c: a JSON text, the flat token array the
  tokenizer produced for it, and a single `index` into that array.

  A token's children follow it directly in the array: an array token is
  followed by its `size` elements, an object token by its `size` key/value
  pairs, each a key token followed by the value's tokens. `SubtreeEnd` is the
  position just past a token and all its descendants.
 */
module JsonStream {
  import opened Wrappers
  import opened Pebble

  datatype JsonType = JsonUndefined | JsonObject | JsonArray | JsonString | JsonPrimitive

  /** A token: its type, the byte range [start, end) of its text, `len` =
      end - start, and `size`, its number of direct children. */
  datatype JsonToken = JsonToken(kind: JsonType, start: int, end: int, len: int, size: nat)

  /** The text and the tokens of one document. */
  datatype Doc = Doc(buf: string, tokens: seq<JsonToken>) {

    predicate InBuf(tok: JsonToken)
    {
      0 <= tok.start <= tok.end <= |buf| && tok.len == tok.end - tok.start
    }

    /** Every token lies inside the text with `len == end - start`, and the
        token count fits the `int16_t` the stream keeps it in. */
    predicate Valid()
    {
      && |tokens| <= 0x7FFF
      && forall i :: 0 <= i < |tokens| ==> InBuf(tokens[i])
    }

    /** The bytes a token covers. */
    function Text(tok: JsonToken): string
      requires InBuf(tok)
    {
      buf[tok.start..tok.end]
    }
  }

  // ---------------------------------------------------------------------
  // Text comparison, as strlen/strncmp perform it

  /** `strncmp(buf + pos, s, strlen(s)) == 0`, one character at a time. */
  function StrnEq(buf: string, pos: nat, s: string): bool
    requires pos + |s| <= |buf|
    decreases |s|
  {
    |s| == 0 || (buf[pos] == s[0] && StrnEq(buf, pos + 1, s[1..]))
  }

  lemma {:induction false} StrnEqIsSliceEquality(buf: string, pos: nat, s: string)
    requires pos + |s| <= |buf|
    ensures StrnEq(buf, pos, s) <==> buf[pos..pos + |s|] == s
    decreases |s|
  {
    if |s| > 0 {
      StrnEqIsSliceEquality(buf, pos + 1, s[1..]);
      assert buf[pos..pos + |s|] == [buf[pos]] + buf[pos + 1..pos + 1 + |s[1..]|];
      assert s == [s[0]] + s[1..];
    }
  }

  /** The length test and byte comparison json_eq and json_next_bool make:
      true iff the token's text is exactly `s`. */
  function SpanEquals(doc: Doc, tok: JsonToken, s: string): (r: bool)
    requires doc.InBuf(tok)
    ensures r <==> doc.Text(tok) == s
  {
    if |s| == tok.len then
      StrnEqIsSliceEquality(doc.buf, tok.start, s);
      StrnEq(doc.buf, tok.start, s)
    else false
  }

  /** The token is the string `name`. */
  predicate Spells(doc: Doc, tok: JsonToken, name: string)
    requires doc.InBuf(tok)
  {
    tok.kind == JsonString && doc.Text(tok) == name
  }

  /** json_eq: the token is a STRING whose text is `s`; a PRIMITIVE with the
      same text does not match. */
  function TokenEq(doc: Doc, tok: JsonToken, s: string): bool
    requires doc.InBuf(tok)
  {
    tok.kind == JsonString && doc.Text(tok) == s
  }

  /** json_eq as the C code computes it (type test, length test, then
      strncmp over the token's bytes) decides exactly TokenEq. */
  lemma TokenEqIsStrncmp(doc: Doc, tok: JsonToken, s: string)
    requires doc.InBuf(tok)
    ensures TokenEq(doc, tok, s) <==> tok.kind == JsonString && |s| == tok.len && StrnEq(doc.buf, tok.start, s)
    ensures tok.kind == JsonPrimitive ==> !TokenEq(doc, tok, s)
  {
    if |s| == tok.len {
      StrnEqIsSliceEquality(doc.buf, tok.start, s);
    }
  }

  // ---------------------------------------------------------------------
  // Numbers: atoi and strtoul(.., 16)

  predicate IsDigitIn(c: char, base: nat)
  {
    ('0' <= c <= '9') || (base == 16 && (('a' <= c <= 'f') || ('A' <= c <= 'F')))
  }

  function DigitOf(c: char): nat
  {
    if '0' <= c <= '9' then c as int - '0' as int
    else if 'a' <= c <= 'f' then c as int - 'a' as int + 10
    else if 'A' <= c <= 'F' then c as int - 'A' as int + 10
    else 0
  }

  /** The value of a string of digits, most significant first. */
  function ValueIn(s: string, base: nat): nat
  {
    if s == [] then 0 else ValueIn(s[..|s| - 1], base) * base + DigitOf(s[|s| - 1])
  }

  /** The longest prefix of `s` made of digits of `base`: where the C parsers
      stop reading. */
  function LeadingDigits(s: string, base: nat): (r: string)
    ensures |r| <= |s|
    ensures forall k :: 0 <= k < |r| ==> IsDigitIn(r[k], base)
    ensures |r| < |s| ==> !IsDigitIn(s[|r|], base)
  {
    if s == [] || !IsDigitIn(s[0], base) then []
    else [s[0]] + LeadingDigits(s[1..], base)
  }

  predicate IsSpace(c: char)
  {
    c == ' ' || ('\t' <= c <= '\r')
  }

  function SkipSpaces(s: string): (r: string)
    ensures |r| <= |s|
    ensures r == [] || !IsSpace(r[0])
  {
    if s != [] && IsSpace(s[0]) then SkipSpaces(s[1..]) else s
  }

  /** atoi: leading white space, an optional sign, then decimal digits. */
  function Atoi(s: string): int
  {
    var t := SkipSpaces(s);
    if |t| > 0 && t[0] == '-' then -(ValueIn(LeadingDigits(t[1..], 10), 10) as int)
    else if |t| > 0 && t[0] == '+' then ValueIn(LeadingDigits(t[1..], 10), 10)
    else ValueIn(LeadingDigits(t, 10), 10)
  }

  /** ULONG_MAX on the watch, whose `unsigned long` is 32 bits wide. */
  const UlongMax: nat := 0xFFFF_FFFF

  /** The text after the optional "0x" or "0X" strtoul accepts in base 16. */
  function DropHexPrefix(t: string): (r: string)
    ensures |r| <= |t|
  {
    if |t| >= 2 && t[0] == '0' && (t[1] == 'x' || t[1] == 'X') then t[2..] else t
  }

  /** strtoul(s, NULL, 16): leading white space, an optional sign, an
      optional "0x" or "0X", then hexadecimal digits. A magnitude beyond
      ULONG_MAX gives ULONG_MAX; a '-' negates the magnitude in unsigned
      arithmetic, modulo 2^32. */
  function HexValue(s: string): (r: nat)
    ensures r <= UlongMax
  {
    var t := SkipSpaces(s);
    var v := HexMagnitude(if |t| > 0 && (t[0] == '-' || t[0] == '+') then t[1..] else t);
    if v > UlongMax then UlongMax
    else if |t| > 0 && t[0] == '-' then (if v == 0 then 0 else 0x1_0000_0000 - v)
    else v
  }

  /** The value of the hexadecimal digits after the optional prefix. */
  function HexMagnitude(u: string): nat
  {
    ValueIn(LeadingDigits(DropHexPrefix(u), 16), 16)
  }

  /** The colour json_next_gcolor decodes: one leading '#' is dropped, the
      rest read as hexadecimal and passed to GColorFromHEX. */
  function ColorFromText(s: string): GColor
  {
    FromHex(HexValue(if |s| > 0 && s[0] == '#' then s[1..] else s))
  }

  /** The digit characters of a number, lower-case for hexadecimal. */
  function DigitChar(d: nat): char
    requires d < 16
  {
    if d < 10 then ('0' as int + d) as char else ('a' as int + d - 10) as char
  }

  function Show(n: nat, base: nat): (r: string)
    requires base == 10 || base == 16
    ensures |r| > 0
    ensures forall k :: 0 <= k < |r| ==> IsDigitIn(r[k], base)
  {
    if n < base then [DigitChar(n)] else Show(n / base, base) + [DigitChar(n % base)]
  }

  /** The decimal text of an integer, as a JSON number is written. */
  function DecimalString(x: int): string
  {
    if x < 0 then "-" + Show(-x, 10) else Show(x, 10)
  }

  lemma {:induction false} ValueOfShow(n: nat, base: nat)
    requires base == 10 || base == 16
    ensures ValueIn(Show(n, base), base) == n
  {
    var s := Show(n, base);
    if n >= base {
      ValueOfShow(n / base, base);
      assert s[..|s| - 1] == Show(n / base, base);
    }
  }

  lemma {:induction false} LeadingOfDigits(s: string, base: nat)
    requires forall k :: 0 <= k < |s| ==> IsDigitIn(s[k], base)
    ensures LeadingDigits(s, base) == s
  {
    if s != [] {
      LeadingOfDigits(s[1..], base);
    }
  }

  /** atoi reads back every integer from its decimal text. */
  lemma AtoiOfDecimal(x: int)
    ensures Atoi(DecimalString(x)) == x
  {
    var digits := Show(if x < 0 then -x else x, 10);
    LeadingOfDigits(digits, 10);
    ValueOfShow(if x < 0 then -x else x, 10);
    var s := DecimalString(x);
    assert !IsSpace(s[0]);
    if x < 0 {
      assert s[1..] == digits;
    }
  }

  /** The colour text "#rrggbb" (or without the '#') decodes to its value,
      saturated at ULONG_MAX; only one '#' is dropped. */
  lemma ColorOfHexText(n: nat)
    ensures ColorFromText("#" + Show(n, 16)) == FromHex(if n <= UlongMax then n else UlongMax)
    ensures ColorFromText(Show(n, 16)) == FromHex(if n <= UlongMax then n else UlongMax)
    ensures ColorFromText("##" + Show(n, 16)) == FromHex(0)
  {
    ColorOfHashed(Show(n, 16));
    PlainHexText(n);
    ColorOfPlainHex(n);
    ColorOfDoubleHash(Show(n, 16));
  }

  lemma ColorOfPlainHex(n: nat)
    ensures ColorFromText(Show(n, 16)) == FromHex(if n <= UlongMax then n else UlongMax)
  {
    PlainHexText(n);
    assert IsDigitIn(Show(n, 16)[0], 16);
  }

  /** After two '#'s nothing is read, whatever follows. */
  lemma ColorOfDoubleHash(t: string)
    ensures ColorFromText("##" + t) == FromHex(0)
  {
    assert ("##" + t)[1..] == "#" + t;
    HexValueOfHash("#" + t);
  }

  /** Only the first '#' is dropped. */
  lemma ColorOfHashed(t: string)
    ensures ColorFromText("#" + t) == FromHex(HexValue(t))
  {
    assert ("#" + t)[1..] == t;
  }

  /** Text that starts with '#' holds no number. */
  lemma HexValueOfHash(t: string)
    requires t != [] && t[0] == '#'
    ensures HexValue(t) == 0
  {
    HexValueUnsigned(t);
  }

  /** Text that starts with neither white space nor a sign is read from its
      first character. */
  lemma HexValueUnsigned(t: string)
    requires t != [] && !IsSpace(t[0]) && t[0] != '-' && t[0] != '+'
    ensures HexValue(t) == if HexMagnitude(t) <= UlongMax then HexMagnitude(t) else UlongMax
  {
  }

  /** Hexadecimal digits alone: no white space, sign or prefix to skip. */
  lemma PlainHexText(n: nat)
    ensures HexValue(Show(n, 16)) == if n <= UlongMax then n else UlongMax
  {
    var digits := Show(n, 16);
    HexMagnitudeOfDigits(n);
    assert !IsSpace(digits[0]);
    HexValueUnsigned(digits);
  }

  /** The digits of `n` have magnitude `n`. */
  lemma HexMagnitudeOfDigits(n: nat)
    ensures HexMagnitude(Show(n, 16)) == n
  {
    var digits := Show(n, 16);
    LeadingOfDigits(digits, 16);
    ValueOfShow(n, 16);
    assert DropHexPrefix(digits) == digits by {
      if |digits| >= 2 {
        assert IsDigitIn(digits[1], 16);
      }
    }
  }

  /** So do they after a "0x" or "0X" prefix. */
  lemma HexMagnitudeOfPrefixed(n: nat, prefix: string)
    requires prefix == "0x" || prefix == "0X"
    ensures HexMagnitude(prefix + Show(n, 16)) == n
  {
    var digits := Show(n, 16);
    LeadingOfDigits(digits, 16);
    ValueOfShow(n, 16);
    assert DropHexPrefix(prefix + digits) == digits;
  }

  /** strtoul in base 16 skips leading white space, a '+' and a "0x" or
      "0X" prefix, and negates modulo 2^32 after a '-'. */
  lemma HexValueForms(n: nat)
    requires n <= UlongMax
    ensures HexValue("0x" + Show(n, 16)) == n
    ensures HexValue("0X" + Show(n, 16)) == n
    ensures HexValue(" \t+0x" + Show(n, 16)) == n
    ensures HexValue("-" + Show(n, 16)) == (0x1_0000_0000 - n) % 0x1_0000_0000
    ensures ColorFromText("0x" + Show(n, 16)) == FromHex(n)
  {
    HexValueOfPrefixed(n, "0x");
    HexValueOfPrefixed(n, "0X");
    HexValueOfSpaced(n);
    HexValueOfNegated(n);
    assert ("0x" + Show(n, 16))[0] != '#';
  }

  lemma HexValueOfPrefixed(n: nat, prefix: string)
    requires n <= UlongMax && (prefix == "0x" || prefix == "0X")
    ensures HexValue(prefix + Show(n, 16)) == n
  {
    HexMagnitudeOfPrefixed(n, prefix);
    HexValueUnsigned(prefix + Show(n, 16));
  }

  lemma HexValueOfSpaced(n: nat)
    requires n <= UlongMax
    ensures HexValue(" \t+0x" + Show(n, 16)) == n
  {
    HexMagnitudeOfPrefixed(n, "0x");
    SpacedHexValue(" \t+0x" + Show(n, 16), "0x" + Show(n, 16));
  }

  lemma HexValueOfNegated(n: nat)
    requires n <= UlongMax
    ensures HexValue("-" + Show(n, 16)) == (0x1_0000_0000 - n) % 0x1_0000_0000
  {
    HexMagnitudeOfDigits(n);
    NegatedHexValue(Show(n, 16));
  }

  /** A '-' negates the magnitude of what follows, modulo 2^32. */
  lemma NegatedHexValue(t: string)
    requires t != [] && !IsSpace(t[0]) && HexMagnitude(t) <= UlongMax
    ensures HexValue("-" + t) == (0x1_0000_0000 - HexMagnitude(t)) % 0x1_0000_0000
  {
    assert ("-" + t)[1..] == t;
  }

  /** Two white-space characters and a '+' are skipped. */
  lemma SpacedHexValue(t: string, rest: string)
    requires |t| >= 3 && IsSpace(t[0]) && IsSpace(t[1]) && t[2] == '+' && t[3..] == rest
    ensures HexValue(t) == if HexMagnitude(rest) <= UlongMax then HexMagnitude(rest) else UlongMax
  {
    assert SkipSpaces(t) == SkipSpaces(t[1..]);
    assert t[1..][1..] == t[2..];
    assert SkipSpaces(t[1..]) == SkipSpaces(t[2..]);
    assert t[2..][1..] == t[3..];
  }

  // ---------------------------------------------------------------------
  // Subtrees

  /** The position just past token `i` and all its descendants, or None when
      the subtree runs past the end of the array. */
  function SubtreeEnd(toks: seq<JsonToken>, i: int): (r: Option<nat>)
    ensures r.Some? ==> 0 <= i < r.value <= |toks|
    decreases |toks| - i, 0
  {
    if !(0 <= i < |toks|) then None
    else if toks[i].kind == JsonArray then SkipChildren(toks, i + 1, toks[i].size, false)
    else if toks[i].kind == JsonObject then SkipChildren(toks, i + 1, toks[i].size, true)
    else Some(i + 1)
  }

  /** The position after `k` children starting at `j`: array elements, or
      (when `pairs`) object members made of a key token and a value subtree. */
  function SkipChildren(toks: seq<JsonToken>, j: nat, k: nat, pairs: bool): (r: Option<nat>)
    requires j <= |toks|
    ensures r.Some? ==> j <= r.value <= |toks|
    decreases |toks| - j, 1, k
  {
    if k == 0 then Some(j)
    else if j == |toks| then None
    else
      var valueAt := if pairs then j + 1 else j;
      match SubtreeEnd(toks, valueAt)
      case None => None
      case Some(e) => SkipChildren(toks, e, k - 1, pairs)
  }

  /** A token that is neither an array nor an object: its subtree is
      itself. */
  predicate Scalar(toks: seq<JsonToken>, v: nat)
  {
    v < |toks| && toks[v].kind != JsonArray && toks[v].kind != JsonObject
  }

  /** The shape of a JSON value as the tokenizer lays it out: a scalar is one
      token; an array token is followed by its elements; an object token by
      its members, each a key token whose one child is the value. */
  datatype Tree = Leaf(tok: JsonToken) | Branch(tok: JsonToken, kids: seq<Tree>)

  predicate WellShaped(t: Tree)
    decreases t, 1
  {
    match t
    case Leaf(tok) => tok.kind != JsonArray && tok.kind != JsonObject
    case Branch(tok, kids) =>
      && (tok.kind == JsonArray || tok.kind == JsonObject)
      && tok.size == |kids|
      && forall k :: 0 <= k < |kids| ==> KidShaped(t, k)
  }

  predicate KidShaped(t: Tree, k: nat)
    requires t.Branch? && k < |t.kids|
    decreases t, 0
  {
    var kid := t.kids[k];
    if t.tok.kind == JsonObject then
      kid.Branch? && kid.tok.kind == JsonString && |kid.kids| == 1 && WellShaped(kid.kids[0])
    else WellShaped(kid)
  }

  /** The tokens of a tree, in order. */
  function Flatten(t: Tree): (r: seq<JsonToken>)
    ensures |r| >= 1 && r[0] == t.tok
    decreases t, 1
  {
    match t
    case Leaf(tok) => [tok]
    case Branch(tok, kids) => [tok] + FlattenKids(t, 0)
  }

  function FlattenKids(t: Tree, m: nat): seq<JsonToken>
    requires t.Branch? && m <= |t.kids|
    decreases t, 0, |t.kids| - m
  {
    if m == |t.kids| then [] else Flatten(t.kids[m]) + FlattenKids(t, m + 1)
  }

  /** Reference theorem for `SubtreeEnd`: wherever the tokens of a well-shaped
      tree stand in the array, the subtree ends exactly after them. */
  lemma {:induction false} SubtreeEndOfTree(t: Tree, toks: seq<JsonToken>, i: nat)
    requires WellShaped(t)
    requires i + |Flatten(t)| <= |toks| && toks[i..i + |Flatten(t)|] == Flatten(t)
    ensures SubtreeEnd(toks, i) == Some(i + |Flatten(t)|)
    decreases t, 1
  {
    assert toks[i] == Flatten(t)[0];
    if t.Branch? {
      var rest := FlattenKids(t, 0);
      assert toks[i + 1..i + 1 + |rest|] == rest by {
        assert Flatten(t) == [t.tok] + rest;
        assert toks[i + 1..i + 1 + |rest|] == toks[i..i + |Flatten(t)|][1..];
      }
      SkipKidsOfTree(t, 0, toks, i + 1);
    }
  }

  lemma {:induction false} SkipKidsOfTree(t: Tree, m: nat, toks: seq<JsonToken>, j: nat)
    requires WellShaped(t) && t.Branch? && m <= |t.kids|
    requires j + |FlattenKids(t, m)| <= |toks| && toks[j..j + |FlattenKids(t, m)|] == FlattenKids(t, m)
    ensures SkipChildren(toks, j, |t.kids| - m, t.tok.kind == JsonObject) == Some(j + |FlattenKids(t, m)|)
    decreases t, 0, |t.kids| - m
  {
    if m < |t.kids| {
      assert KidShaped(t, m);
      var kid := t.kids[m];
      var here := Flatten(kid);
      var later := FlattenKids(t, m + 1);
      assert FlattenKids(t, m) == here + later;
      SliceSplit(toks, j, here, later);
      if t.tok.kind == JsonObject {
        MemberEnd(kid, toks, j);
      } else {
        SubtreeEndOfTree(kid, toks, j);
      }
      SkipKidsOfTree(t, m + 1, toks, j + |here|);
    }
  }

  /** An object member (a key token whose one child is the value) ends
      where its value's subtree ends. */
  lemma {:induction false} MemberEnd(kid: Tree, toks: seq<JsonToken>, j: nat)
    requires kid.Branch? && |kid.kids| == 1 && WellShaped(kid.kids[0])
    requires j + |Flatten(kid)| <= |toks| && toks[j..j + |Flatten(kid)|] == Flatten(kid)
    ensures SubtreeEnd(toks, j + 1) == Some(j + |Flatten(kid)|)
    decreases kid, 2
  {
    var vs := Flatten(kid.kids[0]);
    assert FlattenKids(kid, 1) == [];
    assert FlattenKids(kid, 0) == vs + FlattenKids(kid, 1);
    assert Flatten(kid) == [kid.tok] + vs;
    SliceSplit(toks, j, [kid.tok], vs);
    SubtreeEndOfTree(kid.kids[0], toks, j + 1);
  }

  /** A slice holding `a + b` holds `a`, then `b`. */
  lemma SliceSplit<T>(s: seq<T>, j: nat, a: seq<T>, b: seq<T>)
    requires j + |a + b| <= |s| && s[j..j + |a + b|] == a + b
    ensures s[j..j + |a|] == a && s[j + |a|..j + |a| + |b|] == b
  {
    assert s[j..j + |a|] == s[j..j + |a + b|][..|a|];
    assert s[j + |a|..j + |a| + |b|] == s[j..j + |a + b|][|a|..];
  }

  // ---------------------------------------------------------------------
  // Pure readings used by the tree builders

  /** atoi of the text of token `i`. */
  function IntAt(doc: Doc, i: nat): int
    requires doc.Valid() && i < |doc.tokens|
  {
    Atoi(doc.Text(doc.tokens[i]))
  }

  /** What json_next_bool returns for token `i`: true only for the
      PRIMITIVE `true`. */
  function BoolAt(doc: Doc, i: nat): bool
    requires doc.Valid() && i < |doc.tokens|
  {
    doc.tokens[i].kind == JsonPrimitive && doc.Text(doc.tokens[i]) == "true"
  }

  /** What json_next_grect returns at position `i`, with the position after
      it; None when it would read past the last token. */
  function GRectAt(doc: Doc, i: int): Option<(GRect, nat)>
    requires doc.Valid()
  {
    if !(0 <= i < |doc.tokens|) then None
    else if doc.tokens[i].kind != JsonArray then Some((GRectZero, i + 1))
    else if i + 5 > |doc.tokens| then None
    else Some((RectAt(doc, i + 1), i + 5))
  }

  /** The rectangle of the four ints at positions j .. j+3, each truncated
      to int16_t. */
  function RectAt(doc: Doc, j: nat): GRect
    requires doc.Valid() && j + 4 <= |doc.tokens|
  {
    GRect(Int16(IntAt(doc, j)), Int16(IntAt(doc, j + 1)), Int16(IntAt(doc, j + 2)), Int16(IntAt(doc, j + 3)))
  }

  // ---------------------------------------------------------------------
  // The stream

  class Json {
    /** buf, tokens and num_tokens: fixed once the document is loaded. */
    const doc: Doc
    /** The cursor. */
    var index: int16

    /** json_create_with_resource, after loading and tokenising: the cursor
        starts at the first token. */
    constructor (doc: Doc)
      requires doc.Valid()
      ensures this.doc == doc && index == 0
    {
      this.doc := doc;
      index := 0;
    }

    /** json_has_next: the cursor is before the end of the token array. It
        does not move the cursor. */
    function HasNext(): (r: bool)
      reads this
      ensures r <==> index < |doc.tokens|
    {
      index < |doc.tokens|
    }

    /** json_next: the token at the cursor; the cursor moves on by one. There
        is no bounds check, so the cursor must be on a token. */
    method Next() returns (tok: JsonToken)
      requires doc.Valid() && 0 <= index < |doc.tokens|
      modifies this
      ensures tok == doc.tokens[old(index)] && doc.InBuf(tok)
      ensures index == old(index) + 1
    {
      tok := doc.tokens[index];
      index := index + 1;
    }

    /** json_next_string: a copy of the text of the next token. */
    method NextString() returns (s: string)
      requires doc.Valid() && 0 <= index < |doc.tokens|
      modifies this
      ensures s == doc.Text(doc.tokens[old(index)])
      ensures index == old(index) + 1
    {
      var tok := Next();
      s := doc.buf[tok.start..tok.start + tok.len];
    }

    /** json_next_int: atoi of the next token's text. */
    method NextInt() returns (i: int)
      requires doc.Valid() && 0 <= index < |doc.tokens|
      modifies this
      ensures i == IntAt(doc, old(index))
      ensures index == old(index) + 1
    {
      var s := NextString();
      i := Atoi(s);
    }

    /** json_next_bool: true iff the next token is the PRIMITIVE `true`; the
        STRING "true" is false. */
    method NextBool() returns (b: bool)
      requires doc.Valid() && 0 <= index < |doc.tokens|
      modifies this
      ensures b <==> doc.tokens[old(index)].kind == JsonPrimitive && doc.Text(doc.tokens[old(index)]) == "true"
      ensures b == BoolAt(doc, old(index) as nat)
      ensures index == old(index) + 1
    {
      var tok := Next();
      b := tok.kind == JsonPrimitive && SpanEquals(doc, tok, "true");
    }

    /** json_next_grect: a non-array token gives GRectZero and only that
        token is consumed; an array token is followed by four ints read
        whatever the array's size, each truncated to int16_t. */
    method NextGRect() returns (r: GRect)
      requires doc.Valid() && 0 <= index < |doc.tokens|
      requires doc.tokens[index].kind == JsonArray ==> index + 5 <= |doc.tokens|
      modifies this
      ensures doc.tokens[old(index)].kind != JsonArray ==> r == GRectZero && index == old(index) + 1
      ensures doc.tokens[old(index)].kind == JsonArray ==>
        && index == old(index) + 5
        && r == RectAt(doc, old(index) + 1)
      ensures GRectAt(doc, old(index)) == Some((r, index as nat))
    {
      var tok := Next();
      if tok.kind != JsonArray {
        return GRectZero;
      }
      ghost var start: nat := index as nat;
      var values: seq<int16> := [];
      for k := 0 to 4
        invariant index as int == start + k
        invariant |values| == k
        invariant forall j :: 0 <= j < k ==> values[j] == Int16(IntAt(doc, start + j))
      {
        var v := NextInt();
        values := values + [Int16(v)];
      }
      r := GRect(values[0], values[1], values[2], values[3]);
      assert r == RectAt(doc, start);
    }

    /** json_next_gcolor: the next token's text with one optional leading '#'
        removed, read as hexadecimal. */
    method NextGColor() returns (c: GColor)
      requires doc.Valid() && 0 <= index < |doc.tokens|
      modifies this
      ensures c == ColorFromText(doc.Text(doc.tokens[old(index)]))
      ensures index == old(index) + 1
    {
      var s := NextString();
      var digits := if |s| > 0 && s[0] == '#' then s[1..] else s;
      c := FromHex(HexValue(digits));
    }

    /** json_skip_tree: consumes the token at the cursor and, for an array or
        object, each of its `size` children (an object's as key plus value),
        landing just past the whole subtree. */
    method SkipTree()
      requires doc.Valid() && SubtreeEnd(doc.tokens, index).Some?
      modifies this
      ensures index == SubtreeEnd(doc.tokens, old(index)).value
      decreases |doc.tokens| - index
    {
      var tok := Next();
      if tok.kind == JsonArray {
        var size := tok.size;
        for i := 0 to size
          invariant old(index) < index <= |doc.tokens|
          invariant SkipChildren(doc.tokens, index as nat, size - i, false) == SubtreeEnd(doc.tokens, old(index))
        {
          SkipTree();
        }
      } else if tok.kind == JsonObject {
        var size := tok.size;
        for i := 0 to size
          invariant old(index) < index <= |doc.tokens|
          invariant SkipChildren(doc.tokens, index as nat, size - i, true) == SubtreeEnd(doc.tokens, old(index))
        {
          tok := Next();
          SkipTree();
        }
      }
    }

    /** json_get_index. */
    function GetIndex(): (r: int16)
      reads this
      ensures r == index
    {
      index
    }

    /** json_set_index: a later json_get_index returns `i`. */
    method SetIndex(i: int16)
      modifies this
      ensures index == i && GetIndex() == i
    {
      index := i;
    }
  }
}
