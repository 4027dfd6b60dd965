/**
 * `sanitizePurchaseOrderNumber` of backend/src/extract.ts: strip one leading
 * purchase-order label (in several languages), then keep only code characters.
 *
 * The label regular expression is encoded as an ordered list of alternatives,
 * each a sequence of atoms matched greedily. Greedy matching without
 * backtracking is exact here: every `\s*`/`\s+` and every optional class is
 * followed by a character it cannot match, and the part after the label
 * (`\s*[:#]?\s*`) always matches, so the first alternative that matches the
 * head of the text is the one the regular expression engine commits to.
 */
module PurchaseOrder {
  import opened Wrappers
  import opened Strings

  /** One element of a label pattern. */
  datatype Atom =
    | Lit(c: char)            // one character, compared case-insensitively
    | OneOf(cs: seq<char>)    // `[...]`
    | MaybeOf(cs: seq<char>)  // `[...]?`
    | Blanks                  // `\s*`
    | Blanks1                 // `\s+`

  /**
   * Case folding of the `i` flag without `u`, restricted to the letters the
   * label patterns contain: ASCII letters and `ú`/`Ú`.
   */
  function Fold(c: char): char {
    if c == '\U{00DA}' then '\U{00FA}' else LowerChar(c)
  }

  /** A literal word of the pattern. */
  function Word(w: string): (p: seq<Atom>)
    ensures |p| == |w|
  {
    if w == [] then [] else [Lit(w[0])] + Word(w[1..])
  }

  /** The length of the white-space run at the head of `s`. */
  function Blank(s: string): (k: nat)
    ensures k <= |s| && s[k..] == TrimStart(s)
  {
    TrimStartSuffix(s);
    |s| - |TrimStart(s)|
  }

  predicate MatchesOne(c: char, cs: seq<char>) {
    exists k :: 0 <= k < |cs| && Fold(c) == Fold(cs[k])
  }

  /** The length of the greedy match of `p` at the head of `s`, if any. */
  function MatchAtoms(p: seq<Atom>, s: string): (r: Option<nat>)
    ensures r.Some? ==> r.value <= |s|
    decreases |p|
  {
    if p == [] then Some(0)
    else
      var head: Option<nat> :=
        match p[0]
        case Lit(c) => if |s| > 0 && Fold(s[0]) == Fold(c) then Some(1) else None
        case OneOf(cs) => if |s| > 0 && MatchesOne(s[0], cs) then Some(1) else None
        case MaybeOf(cs) => if |s| > 0 && MatchesOne(s[0], cs) then Some(1) else Some(0)
        case Blanks => Some(Blank(s))
        case Blanks1 => if Blank(s) > 0 then Some(Blank(s)) else None;
      if head.None? then None
      else
        match MatchAtoms(p[1..], s[head.value..])
        case None => None
        case Some(k) => Some(head.value + k)
  }

  /**
   * The label alternatives in the order the regular expression lists them,
   * with `order\s*(?:no|number|nr|n[oº°])` expanded in its own order.
   */
  function Labels(): seq<seq<Atom>> {
    [ /* po */ [Lit('p'), Lit('o')],
      /* p\.o\. */ [Lit('p'), Lit('.'), Lit('o'), Lit('.')],
      /* purchase\s*order */
      [Lit('p'), Lit('u'), Lit('r'), Lit('c'), Lit('h'), Lit('a'), Lit('s'), Lit('e'), Blanks,
       Lit('o'), Lit('r'), Lit('d'), Lit('e'), Lit('r')],
      /* order\s*no */ [Lit('o'), Lit('r'), Lit('d'), Lit('e'), Lit('r'), Blanks, Lit('n'), Lit('o')],
      /* order\s*number */
      [Lit('o'), Lit('r'), Lit('d'), Lit('e'), Lit('r'), Blanks,
       Lit('n'), Lit('u'), Lit('m'), Lit('b'), Lit('e'), Lit('r')],
      /* order\s*nr */ [Lit('o'), Lit('r'), Lit('d'), Lit('e'), Lit('r'), Blanks, Lit('n'), Lit('r')],
      /* order\s*n[oº°] */
      [Lit('o'), Lit('r'), Lit('d'), Lit('e'), Lit('r'), Blanks,
       Lit('n'), OneOf(['o', '\U{00BA}', '\U{00B0}'])],
      /* n[úu]mero\s+de\s+orden\s+de\s+compra */
      [Lit('n'), OneOf(['\U{00FA}', 'u']), Lit('m'), Lit('e'), Lit('r'), Lit('o'), Blanks1,
       Lit('d'), Lit('e'), Blanks1, Lit('o'), Lit('r'), Lit('d'), Lit('e'), Lit('n'), Blanks1,
       Lit('d'), Lit('e'), Blanks1, Lit('c'), Lit('o'), Lit('m'), Lit('p'), Lit('r'), Lit('a')],
      /* orden\s+de\s+compra */
      [Lit('o'), Lit('r'), Lit('d'), Lit('e'), Lit('n'), Blanks1, Lit('d'), Lit('e'), Blanks1,
       Lit('c'), Lit('o'), Lit('m'), Lit('p'), Lit('r'), Lit('a')],
      /* n[úu]mero\s+de\s+pedido */
      [Lit('n'), OneOf(['\U{00FA}', 'u']), Lit('m'), Lit('e'), Lit('r'), Lit('o'), Blanks1,
       Lit('d'), Lit('e'), Blanks1, Lit('p'), Lit('e'), Lit('d'), Lit('i'), Lit('d'), Lit('o')],
      /* bon\s+de\s+commande */
      [Lit('b'), Lit('o'), Lit('n'), Blanks1, Lit('d'), Lit('e'), Blanks1,
       Lit('c'), Lit('o'), Lit('m'), Lit('m'), Lit('a'), Lit('n'), Lit('d'), Lit('e')],
      /* bestellnummer */
      [Lit('b'), Lit('e'), Lit('s'), Lit('t'), Lit('e'), Lit('l'), Lit('l'),
       Lit('n'), Lit('u'), Lit('m'), Lit('m'), Lit('e'), Lit('r')],
      /* auftragsnummer */
      [Lit('a'), Lit('u'), Lit('f'), Lit('t'), Lit('r'), Lit('a'), Lit('g'), Lit('s'),
       Lit('n'), Lit('u'), Lit('m'), Lit('m'), Lit('e'), Lit('r')],
      /* ordine\s+d[']?acquisto */
      [Lit('o'), Lit('r'), Lit('d'), Lit('i'), Lit('n'), Lit('e'), Blanks1, Lit('d'), MaybeOf(['\'']),
       Lit('a'), Lit('c'), Lit('q'), Lit('u'), Lit('i'), Lit('s'), Lit('t'), Lit('o')]
    ]
  }

  /** The length of the match of the first label alternative that matches the head of `s`. */
  function FirstLabel(labels: seq<seq<Atom>>, s: string): (r: Option<nat>)
    ensures r.Some? ==> r.value <= |s|
  {
    if labels == [] then None
    else match MatchAtoms(labels[0], s)
      case Some(k) => Some(k)
      case None => FirstLabel(labels[1..], s)
  }

  /** `\s*[:#]?\s*` after the label. */
  function SkipSeparator(s: string): (r: string)
    ensures |r| <= |s| && r == s[|s| - |r|..]
  {
    var t := TrimStart(s);
    var u := if |t| > 0 && (t[0] == ':' || t[0] == '#') then t[1..] else t;
    TrimStartSuffix(s);
    TrimStartSuffix(u);
    TrimStart(u)
  }

  /**
   * The label removal: `^\s*(?:label)\s*[:#]?\s*` replaced by nothing. When no
   * alternative matches the text is left as it is.
   */
  function StripLabel(s: string): (r: string)
    ensures |r| <= |s| && r == s[|s| - |r|..]
  {
    var lead := Blank(s);
    StripMatched(s, lead, FirstLabel(Labels(), s[lead..]))
  }

  /** What remains once the blanks (`lead` characters) and the label match `m` are known. */
  function StripMatched(s: string, lead: nat, m: Option<nat>): (r: string)
    requires lead <= |s| && (m.Some? ==> lead + m.value <= |s|)
    ensures |r| <= |s| && r == s[|s| - |r|..]
  {
    match m
    case None => s
    case Some(k) => SkipSeparator(s[lead + k..])
  }

  /** `[A-Za-z0-9\-\/\.]`, the characters a purchase-order number may keep. */
  predicate IsCodeChar(c: char) {
    IsAlnum(c) || c == '-' || c == '/' || c == '.'
  }

  /**
   * `sanitizePurchaseOrderNumber`: `None` is the source's `null`. Every value
   * it returns consists of code characters only, contains a digit and is at
   * least three characters long.
   */
  function Sanitize(input: string): (r: Option<string>)
    ensures input == "" ==> r == None
    ensures r.Some? ==> forall i :: 0 <= i < |r.value| ==> IsCodeChar(r.value[i])
    ensures r.Some? ==> HasDigit(r.value) && |r.value| >= 3
  {
    if input == "" then None
    else
      var t := KeepChars(StripLabel(Trim(input)), IsCodeChar);
      CodeCharsBmp(t);
      if !HasDigit(t) then None
      else if Utf16Length(t) < 3 then None
      else Some(t)
  }

  lemma CodeCharsBmp(t: string)
    requires forall i :: 0 <= i < |t| ==> IsCodeChar(t[i])
    ensures Utf16Length(t) == |t|
  {
    Utf16LengthBmp(t);
  }

  /** Only the head of the text can be removed: what survives is a suffix of the trimmed input. */
  lemma StripsOnlyPrefix(s: string)
    ensures EndsWith(s, StripLabel(s))
  {
  }

  /** A literal word matches exactly the text that agrees with it under case folding. */
  lemma {:induction false} MatchWord(w: string, s: string)
    requires |w| <= |s| && forall i :: 0 <= i < |w| ==> Fold(s[i]) == Fold(w[i])
    ensures MatchAtoms(Word(w), s) == Some(|w|)
  {
    if w != [] {
      assert Word(w)[0] == Lit(w[0]) && Word(w)[1..] == Word(w[1..]);
      MatchWord(w[1..], s[1..]);
    }
  }

  /** `po` is the first alternative, so it wins over every later one. */
  lemma PoFirst(s: string)
    requires |s| >= 2 && Fold(s[0]) == 'p' && Fold(s[1]) == 'o'
    ensures FirstLabel(Labels(), s) == Some(2)
  {
    assert Labels()[0] == [Lit('p'), Lit('o')] == Word("po");
    MatchWord("po", s);
  }

  /** With no leading blank, the label match decides what remains. */
  lemma StripAfterLabel(s: string, k: nat)
    requires Blank(s) == 0 && FirstLabel(Labels(), s) == Some(k)
    ensures StripLabel(s) == SkipSeparator(s[k..])
  {
    assert s[0..] == s;
    assert StripLabel(s) == StripMatched(s, 0, Some(k));
  }

  /** A non-empty trimmed text whose cleaned form is a plausible code is returned as that code. */
  lemma SanitizeClean(input: string, t: string)
    requires input != "" && KeepChars(StripLabel(Trim(input)), IsCodeChar) == t
    requires HasDigit(t) && |t| >= 3
    ensures Sanitize(input) == Some(t)
  {
    CodeCharsBmp(t);
  }

  /** Every label alternative starts with a letter. */
  lemma LabelsStartWithLetter()
    ensures forall j :: 0 <= j < |Labels()| ==>
      |Labels()[j]| > 0 && Labels()[j][0].Lit? && IsAsciiLower(Labels()[j][0].c)
  {
  }

  /** No label matches text that starts with a digit. */
  lemma {:induction false} NoLabelBeforeDigit(labels: seq<seq<Atom>>, s: string)
    requires forall j :: 0 <= j < |labels| ==>
      |labels[j]| > 0 && labels[j][0].Lit? && IsAsciiLower(labels[j][0].c)
    requires |s| > 0 && IsDigit(s[0])
    ensures FirstLabel(labels, s) == None
  {
    if labels != [] {
      NoLabelBeforeDigit(labels[1..], s);
    }
  }

  /**
   * A value that already is a clean code (code characters only, a digit, at
   * least three characters) and starts with a digit is returned unchanged.
   */
  lemma CleanCodeKept(s: string)
    requires |s| >= 3 && IsDigit(s[0])
    requires forall i :: 0 <= i < |s| ==> IsCodeChar(s[i])
    ensures Sanitize(s) == Some(s)
  {
    forall i | 0 <= i < |s| ensures !IsSpace(s[i]) {
      assert IsCodeChar(s[i]);
    }
    TrimNoSpace(s);
    assert TrimStart(s) == s;
    LabelsStartWithLetter();
    NoLabelBeforeDigit(Labels(), s);
    KeepCodeChars(s);
    CodeCharsBmp(s);
    assert IsDigit(s[0]);
  }

  lemma {:induction false} KeepCodeChars(s: string)
    requires forall i :: 0 <= i < |s| ==> IsCodeChar(s[i])
    ensures KeepChars(s, IsCodeChar) == s
  {
    if s != [] {
      KeepCodeChars(s[1..]);
      assert s == [s[0]] + s[1..];
    }
  }
}

/** How the sanitiser treats a leading `PO` label. */
module PurchaseOrderExamples {
  import opened Wrappers
  import opened Strings
  import opened PurchaseOrder

  lemma {:induction false} TrimStartBlanks(sep: string, rest: string)
    requires forall i :: 0 <= i < |sep| ==> IsSpace(sep[i])
    requires rest == [] || !IsSpace(rest[0])
    ensures TrimStart(sep + rest) == rest
  {
    if sep != [] {
      assert (sep + rest)[0] == sep[0];
      assert (sep + rest)[1..] == sep[1..] + rest;
      TrimStartBlanks(sep[1..], rest);
    } else {
      assert sep + rest == rest;
    }
  }

  /** `PO`, blanks, then a code starting with a letter or digit: only the label and the blanks go. */
  lemma {:induction false} StripPoLabel(sep: string, rest: string)
    requires forall i :: 0 <= i < |sep| ==> IsSpace(sep[i])
    requires |rest| > 0 && IsAlnum(rest[0])
    ensures StripLabel("PO" + sep + rest) == rest
  {
    var s := "PO" + sep + rest;
    var tail := sep + rest;
    assert s == "PO" + tail;
    assert s[2..] == tail;
    assert s[0] == 'P' && s[1] == 'O';
    NoBlank(s);
    PoFirst(s);
    StripAfterLabel(s, 2);
    SkipBlanks(sep, rest);
    assert StripLabel(s) == SkipSeparator(tail);
  }

  lemma SkipBlanks(sep: string, rest: string)
    requires forall i :: 0 <= i < |sep| ==> IsSpace(sep[i])
    requires |rest| > 0 && IsAlnum(rest[0])
    ensures SkipSeparator(sep + rest) == rest
  {
    TrimStartBlanks(sep, rest);
    assert rest[0] != ':' && rest[0] != '#' && !IsSpace(rest[0]);
  }

  lemma NoBlank(s: string)
    requires |s| > 0 && !IsSpace(s[0])
    ensures Blank(s) == 0
  {
  }

  /** A digit string is code text that keeps its characters. */
  lemma {:induction false} DigitsAreCode(d: string)
    requires |d| >= 1 && forall i :: 0 <= i < |d| ==> IsDigit(d[i])
    ensures KeepChars(d, IsCodeChar) == d && KeepChars("PO" + d, IsCodeChar) == "PO" + d
    ensures HasDigit(d) && HasDigit("PO" + d)
  {
    KeepCodeChars(d);
    var t := "PO" + d;
    forall i | 0 <= i < |t| ensures IsCodeChar(t[i]) {
      if i >= 2 { assert t[i] == d[i - 2]; }
    }
    KeepCodeChars(t);
    assert IsDigit(d[0]) && t[2] == d[0];
  }

  /** `"PO" + d` for a digit string is already trimmed. */
  lemma {:induction false} PoCodeTrimmed(d: string)
    requires |d| >= 1 && IsDigit(d[|d| - 1])
    ensures Trim("PO" + d) == "PO" + d && Trim("PO PO" + d) == "PO PO" + d
  {
    var once := "PO" + d;
    var twice := "PO PO" + d;
    assert once[|once| - 1] == d[|d| - 1] && twice[|twice| - 1] == d[|d| - 1];
    TrimOfTrimmed(once);
    TrimOfTrimmed(twice);
  }

  /** `"PO" + d` loses its label. */
  lemma {:induction false} SanitizeOnce(d: string)
    requires |d| >= 3 && forall i :: 0 <= i < |d| ==> IsDigit(d[i])
    ensures Sanitize("PO" + d) == Some(d)
  {
    DigitsAreCode(d);
    PoCodeTrimmed(d);
    StripOnce(d);
    SanitizeClean("PO" + d, d);
  }

  lemma StripOnce(d: string)
    requires |d| >= 1 && IsDigit(d[0])
    ensures StripLabel("PO" + d) == d
  {
    assert "PO" + d == "PO" + [] + d;
    StripPoLabel([], d);
  }

  lemma StripTwice(d: string)
    ensures StripLabel("PO PO" + d) == "PO" + d
  {
    assert "PO PO" + d == "PO" + " " + ("PO" + d);
    StripPoLabel(" ", "PO" + d);
  }

  /** `"PO PO" + d` loses only its first label. */
  lemma {:induction false} SanitizeTwice(d: string)
    requires |d| >= 3 && forall i :: 0 <= i < |d| ==> IsDigit(d[i])
    ensures Sanitize("PO PO" + d) == Some("PO" + d)
  {
    DigitsAreCode(d);
    PoCodeTrimmed(d);
    StripTwice(d);
    SanitizeClean("PO PO" + d, "PO" + d);
  }

  /**
   * The sanitiser is not idempotent: `"PO PO" + d` gives `"PO" + d`, and that
   * gives `d` (with `d` = `"123"`: `"PO PO123"`, `"PO123"`, `"123"`).
   */
  lemma NotIdempotent(d: string)
    requires |d| >= 3 && forall i :: 0 <= i < |d| ==> IsDigit(d[i])
    ensures Sanitize("PO PO" + d) == Some("PO" + d)
    ensures Sanitize("PO" + d) == Some(d)
    ensures Sanitize("PO" + d) != Sanitize("PO PO" + d)
  {
    SanitizeTwice(d);
    SanitizeOnce(d);
    assert |"PO" + d| != |d|;
  }
}
