/** Field normalisation (internal/utils/normalization.go).
  *
  * Case folding is modelled on ASCII letters; other code points keep their case.
  */
module Normalization {

  // ----- characters ------------------------------------------------------------------------------

  function ToLower(c: char): char {
    if 'A' <= c <= 'Z' then c + ' ' else c
  }

  /** White space as `strings.TrimSpace` and `strings.Fields` see it. */
  predicate IsSpace(c: char) {
    '\t' <= c <= '\r' || c == ' ' || c == '\U{85}' || c == '\U{A0}' || c == '\U{1680}' ||
    '\U{2000}' <= c <= '\U{200A}' || c == '\U{2028}' || c == '\U{2029}' || c == '\U{202F}' ||
    c == '\U{205F}' || c == '\U{3000}'
  }

  predicate IsDigit(c: char) {
    '0' <= c <= '9'
  }

  /** The regular-expression class `\w`, which is ASCII only. */
  predicate IsWord(c: char) {
    IsDigit(c) || 'a' <= c <= 'z' || 'A' <= c <= 'Z' || c == '_'
  }

  /** The regular-expression class `\s`, which lacks the vertical tab. */
  predicate IsRegexSpace(c: char) {
    c == '\t' || c == '\n' || c == '\U{0C}' || c == '\r' || c == ' '
  }

  /** Combining marks (the basic block). */
  predicate IsMark(c: char) {
    '\U{300}' <= c <= '\U{36F}'
  }

  // ----- string functions ------------------------------------------------------------------------

  function Lower(s: string): (r: string)
    ensures |r| == |s|
  {
    seq(|s|, k requires 0 <= k < |s| => ToLower(s[k]))
  }

  function TrimLeft(s: string): string {
    if s != [] && IsSpace(s[0]) then TrimLeft(s[1..]) else s
  }

  function TrimRight(s: string): string {
    if s != [] && IsSpace(s[|s| - 1]) then TrimRight(s[..|s| - 1]) else s
  }

  function TrimSpace(s: string): string {
    TrimRight(TrimLeft(s))
  }

  /** Position of the first `c`, or `|s|` if there is none. */
  function FirstIndex(s: string, c: char): (k: nat)
    ensures k <= |s|
    ensures k < |s| ==> s[k] == c
    ensures c !in s[..k]
  {
    if s == [] then 0
    else if s[0] == c then 0
    else
      var k := 1 + FirstIndex(s[1..], c);
      assert s[..k] == [s[0]] + s[1..][..k - 1];
      k
  }

  function Keep(s: string, p: char -> bool): (r: string)
    ensures forall c :: c in r <==> c in s && p(c)
  {
    if s == [] then []
    else if p(s[0]) then [s[0]] + Keep(s[1..], p)
    else Keep(s[1..], p)
  }

  lemma {:induction false} KeepAll(s: string, p: char -> bool)
    requires forall c :: c in s ==> p(c)
    ensures Keep(s, p) == s
  {
    if s != [] {
      KeepAll(s[1..], p);
    }
  }

  // ----- trimming facts --------------------------------------------------------------------------

  predicate IsTrimmed(s: string) {
    s == [] || (!IsSpace(s[0]) && !IsSpace(s[|s| - 1]))
  }

  lemma {:induction false} TrimLeftIsSuffix(s: string) returns (i: nat)
    ensures i <= |s| && TrimLeft(s) == s[i..]
    ensures forall k :: 0 <= k < i ==> IsSpace(s[k])
    ensures TrimLeft(s) != [] ==> !IsSpace(TrimLeft(s)[0])
  {
    if s != [] && IsSpace(s[0]) {
      var k := TrimLeftIsSuffix(s[1..]);
      i := k + 1;
      assert forall m :: 1 <= m < i ==> s[m] == s[1..][m - 1];
    } else {
      i := 0;
    }
  }

  lemma {:induction false} TrimRightIsPrefix(s: string) returns (j: nat)
    ensures j <= |s| && TrimRight(s) == s[..j]
    ensures forall k :: j <= k < |s| ==> IsSpace(s[k])
    ensures TrimRight(s) != [] ==> !IsSpace(TrimRight(s)[|TrimRight(s)| - 1])
  {
    if s != [] && IsSpace(s[|s| - 1]) {
      j := TrimRightIsPrefix(s[..|s| - 1]);
      assert s[..|s| - 1][..j] == s[..j];
    } else {
      j := |s|;
    }
  }

  /** Trimming cuts white space off both ends, all of it and nothing else. */
  lemma TrimIsSlice(s: string) returns (i: nat, j: nat)
    ensures i <= j <= |s| && TrimSpace(s) == s[i..j]
    ensures forall k :: 0 <= k < i || j <= k < |s| ==> IsSpace(s[k])
    ensures IsTrimmed(TrimSpace(s))
  {
    i := TrimLeftIsSuffix(s);
    var k := TrimRightIsPrefix(s[i..]);
    j := i + k;
    assert s[i..][..k] == s[i..j];
    forall m | j <= m < |s|
      ensures IsSpace(s[m])
    {
      assert s[m] == s[i..][m - i];
    }
  }

  /** What counts as white space to be trimmed: the code points with the Unicode property White_Space. */
  lemma TrimmedCharacters(c: char)
    ensures TrimSpace([c]) == (if IsWhiteSpace(c as int) then "" else [c])
  {
    assert IsSpace(c) <==> IsWhiteSpace(c as int);
    hide IsSpace, IsWhiteSpace;
    assert [c][1..] == "" && TrimLeft("") == "";
    if !IsSpace(c) {
      assert TrimLeft([c]) == [c] && TrimRight([c]) == [c];
    }
  }

  predicate IsWhiteSpace(n: int) {
    n in {0x09, 0x0A, 0x0B, 0x0C, 0x0D, 0x20, 0x85, 0xA0, 0x1680, 0x2028, 0x2029, 0x202F, 0x205F, 0x3000} ||
    0x2000 <= n <= 0x200A
  }

  lemma TrimmedIsFixed(s: string)
    requires IsTrimmed(s)
    ensures TrimSpace(s) == s
  {
  }

  // ----- email ---------------------------------------------------------------------------------

  function NormalizeEmail(email: string): string {
    var e := Lower(TrimSpace(email));
    var at := FirstIndex(e, '@');
    if at == |e| then e
    else
      var local := e[..at];
      local[..FirstIndex(local, '+')] + e[at..]
  }

  function EmailDomain(email: string): string {
    var at := FirstIndex(email, '@');
    if at == |email| then "" else email[at + 1..]
  }

  /** The domain is what follows the first at sign; normalising keeps it, but for case and white space. */
  lemma EmailDomainFollowsAt(email: string, local: string, domain: string)
    ensures '@' !in local ==> EmailDomain(local + "@" + domain) == domain
    ensures '@' !in email ==> EmailDomain(email) == ""
    ensures EmailDomain(NormalizeEmail(email)) == EmailDomain(Lower(TrimSpace(email)))
  {
    var s := local + "@" + domain;
    if '@' !in local {
      assert s[..|local|] == local && s[|local| + 1..] == domain;
      FirstIndexIs(s, '@', |local|);
    }
    var e := Lower(TrimSpace(email));
    var k, at := NormalizedEmailIsCut(email);
    FirstIndexIs(e, '@', at);
    if at < |e| {
      var n := e[..k] + e[at..];
      assert n[..k] == e[..k] && n[k] == e[at] && n[k + 1..] == e[at + 1..];
      assert forall c :: c in e[..k] ==> c in e[..at];
      FirstIndexIs(n, '@', k);
    }
  }

  predicate IsFolded(s: string) {
    forall k :: 0 <= k < |s| ==> ToLower(s[k]) == s[k]
  }

  lemma FoldedIsFixed(s: string)
    requires IsFolded(s)
    ensures Lower(s) == s
  {
  }

  lemma LowerOfTrimmed(s: string)
    requires IsTrimmed(s)
    ensures IsTrimmed(Lower(s)) && IsFolded(Lower(s))
  {
    if s != [] {
      assert Lower(s)[0] == ToLower(s[0]) && Lower(s)[|s| - 1] == ToLower(s[|s| - 1]);
    }
  }

  lemma {:induction false} FirstIndexIs(s: string, c: char, k: nat)
    requires k <= |s| && c !in s[..k] && (k == |s| || s[k] == c)
    ensures FirstIndex(s, c) == k
  {
    var f := FirstIndex(s, c);
    assert forall m :: 0 <= m < k ==> s[m] in s[..k];
    assert forall m :: 0 <= m < f ==> s[m] in s[..f];
  }

  /** What is left of an address: folded and trimmed, its local part up to the first plus sign, and
      everything from the first at sign on. */
  lemma NormalizedEmailIsCut(email: string) returns (k: nat, at: nat)
    ensures var e := Lower(TrimSpace(email));
            && k <= at <= |e|
            && NormalizeEmail(email) == e[..k] + e[at..]
            && '@' !in e[..at] && (at == |e| ==> k == at) && (at < |e| ==> e[at] == '@' && '+' !in e[..k])
            && (k == at || e[k] == '+')
  {
    var e := Lower(TrimSpace(email));
    at := FirstIndex(e, '@');
    k := if at == |e| then at else FirstIndex(e[..at], '+');
    if at < |e| {
      assert e[..at][..k] == e[..k];
    }
  }

  /** Folding tells two letters apart exactly as far as they differ in more than their case. */
  lemma LowerFoldsCase(c: char, d: char)
    ensures ToLower(c) == ToLower(d) <==>
            c == d || ('A' <= c <= 'Z' && d as int == c as int + 32) || ('A' <= d <= 'Z' && c as int == d as int + 32)
    ensures !('A' <= ToLower(c) <= 'Z')
  {
  }

  /** The shape every normalised email has. */
  predicate NormalEmail(s: string) {
    && IsTrimmed(s)
    && IsFolded(s)
    && var at := FirstIndex(s, '@'); at == |s| || '+' !in s[..at]
  }

  lemma NormalizedEmailIsNormal(email: string)
    ensures NormalEmail(NormalizeEmail(email))
  {
    var _, _ := TrimIsSlice(email);
    LowerOfTrimmed(TrimSpace(email));
    var e := Lower(TrimSpace(email));
    var at := FirstIndex(e, '@');
    var n := NormalizeEmail(email);
    if at < |e| {
      var local := e[..at];
      var plus := FirstIndex(local, '+');
      StrippedEmailIsNormal(e, at, plus);
      assert n == e[..plus] + e[at..];
    }
  }

  lemma StrippedEmailIsNormal(e: string, at: nat, plus: nat)
    requires IsTrimmed(e) && IsFolded(e) && plus <= at < |e| && e[at] == '@'
    requires '@' !in e[..at] && '+' !in e[..plus]
    ensures NormalEmail(e[..plus] + e[at..])
  {
    var n := e[..plus] + e[at..];
    assert n[..plus] == e[..plus];
    assert forall c :: c in e[..plus] ==> c in e[..at];
    assert n[plus] == e[at];
    FirstIndexIs(n, '@', plus);
    assert n[|n| - 1] == e[|e| - 1];
    if plus > 0 {
      assert n[0] == e[0];
    } else {
      assert n[0] == '@';
    }
  }

  lemma NormalEmailIsFixed(s: string)
    requires NormalEmail(s)
    ensures NormalizeEmail(s) == s
  {
    hide TrimSpace, IsTrimmed, IsFolded, Lower, FirstIndex;
    TrimmedIsFixed(s);
    FoldedIsFixed(s);
    var at := FirstIndex(s, '@');
    if at < |s| {
      assert s[..at][..at] == s[..at];
      FirstIndexIs(s[..at], '+', at);
      assert s[..at] + s[at..] == s;
    }
  }

  lemma NormalizeEmailIdempotent(email: string)
    ensures NormalizeEmail(NormalizeEmail(email)) == NormalizeEmail(email)
  {
    NormalizedEmailIsNormal(email);
    NormalEmailIsFixed(NormalizeEmail(email));
  }

  // ----- phone ---------------------------------------------------------------------------------

  function NormalizePhone(phone: string): string {
    Keep(phone, IsDigit)
  }

  lemma NormalizePhoneIdempotent(phone: string)
    ensures NormalizePhone(NormalizePhone(phone)) == NormalizePhone(phone)
  {
    KeepAll(NormalizePhone(phone), IsDigit);
  }

  lemma {:induction false} KeepConcat(s: string, t: string, p: char -> bool)
    ensures Keep(s + t, p) == Keep(s, p) + Keep(t, p)
  {
    if s == [] {
      assert s + t == t;
    } else {
      assert (s + t)[1..] == s[1..] + t;
      KeepConcat(s[1..], t, p);
    }
  }

  /** The digits stay, in order, and nothing else does. */
  lemma NormalizePhoneKeepsDigits(a: string, c: char, b: string)
    ensures NormalizePhone(a + [c] + b) ==
            NormalizePhone(a) + (if '0' <= c <= '9' then [c] else []) + NormalizePhone(b)
  {
    KeepConcat(a + [c], b, IsDigit);
    KeepConcat(a, [c], IsDigit);
  }

  // ----- name ----------------------------------------------------------------------------------

  predicate SurvivesPunctuation(c: char) {
    IsWord(c) || IsRegexSpace(c)
  }

  /** Every run of regular-expression white space becomes one blank. */
  function Collapse(s: string): string {
    if s == [] then []
    else if !IsRegexSpace(s[0]) then [s[0]] + Collapse(s[1..])
    else if |s| > 1 && IsRegexSpace(s[1]) then Collapse(s[1..])
    else [' '] + Collapse(s[1..])
  }

  predicate IsNotMark(c: char) {
    !IsMark(c)
  }

  function StripMarks(s: string): string {
    Keep(s, IsNotMark)
  }

  function NormalizeName(name: string): string {
    TrimSpace(StripMarks(Collapse(Keep(Lower(TrimSpace(name)), SurvivesPunctuation))))
  }

  /** The builder loop that drops combining marks. */
  method StripMarksLoop(name: string) returns (b: string)
    ensures b == StripMarks(name)
  {
    b := "";
    for k := 0 to |name|
      invariant b + StripMarks(name[k..]) == StripMarks(name)
    {
      assert name[k..][1..] == name[k + 1..];
      if !IsMark(name[k]) {
        b := b + [name[k]];
      }
    }
  }

  predicate NameChar(c: char) {
    (IsWord(c) && ToLower(c) == c) || c == ' '
  }

  /** Lower-case words separated by single blanks. */
  predicate NormalName(s: string) {
    && IsTrimmed(s)
    && SingleSpaced(s)
  }

  predicate SingleSpaced(s: string) {
    && (forall k :: 0 <= k < |s| ==> NameChar(s[k]))
    && (forall k :: 0 < k < |s| ==> s[k - 1] != ' ' || s[k] != ' ')
  }

  lemma {:induction false} CollapseIsSingleSpaced(s: string)
    requires forall k :: 0 <= k < |s| ==> SurvivesPunctuation(s[k]) && ToLower(s[k]) == s[k]
    ensures SingleSpaced(Collapse(s))
    ensures s == [] <==> Collapse(s) == []
    ensures s != [] ==> (Collapse(s)[0] == ' ' <==> IsRegexSpace(s[0]))
  {
    if s != [] {
      CollapseIsSingleSpaced(s[1..]);
    }
  }

  lemma {:induction false} CollapseIsFixed(s: string)
    requires SingleSpaced(s)
    ensures Collapse(s) == s
  {
    if s != [] {
      assert NameChar(s[0]);
      if |s| > 1 {
        assert NameChar(s[1]);
        assert s[1 - 1] != ' ' || s[1] != ' ';
      }
      assert SingleSpaced(s[1..]) by {
        forall k | 0 < k < |s[1..]|
          ensures s[1..][k - 1] != ' ' || s[1..][k] != ' '
        {
          var m := k + 1;
          assert s[m - 1] != ' ' || s[m] != ' ';
        }
      }
      CollapseIsFixed(s[1..]);
    }
  }

  /** The accent pass never finds anything: the punctuation pass has already removed every
      combining mark, with every other non-ASCII character. */
  lemma MarkPassIsIdle(name: string)
    ensures var collapsed := Collapse(Keep(Lower(TrimSpace(name)), SurvivesPunctuation));
            StripMarks(collapsed) == collapsed && SingleSpaced(collapsed)
  {
    var lowered := Lower(TrimSpace(name));
    var kept := Keep(lowered, SurvivesPunctuation);
    forall k | 0 <= k < |kept|
      ensures SurvivesPunctuation(kept[k]) && ToLower(kept[k]) == kept[k]
    {
      assert kept[k] in kept;
    }
    CollapseIsSingleSpaced(kept);
    KeepAll(Collapse(kept), IsNotMark);
  }

  lemma SliceIsSingleSpaced(s: string, i: nat, j: nat)
    requires SingleSpaced(s) && i <= j <= |s|
    ensures SingleSpaced(s[i..j])
  {
    forall k | 0 < k < j - i
      ensures s[i..j][k - 1] != ' ' || s[i..j][k] != ' '
    {
      var m := i + k;
      assert s[m - 1] != ' ' || s[m] != ' ';
    }
  }

  lemma NormalizedNameIsNormal(name: string)
    ensures NormalName(NormalizeName(name))
  {
    var collapsed := Collapse(Keep(Lower(TrimSpace(name)), SurvivesPunctuation));
    MarkPassIsIdle(name);
    var i, j := TrimIsSlice(collapsed);
    SliceIsSingleSpaced(collapsed, i, j);
  }

  lemma NormalNameIsFixed(s: string)
    requires NormalName(s)
    ensures NormalizeName(s) == s
  {
    TrimmedIsFixed(s);
    forall k | 0 <= k < |s|
      ensures ToLower(s[k]) == s[k] && SurvivesPunctuation(s[k]) && IsNotMark(s[k])
    {
      assert NameChar(s[k]);
    }
    FoldedIsFixed(s);
    KeepAll(s, SurvivesPunctuation);
    CollapseIsFixed(s);
    KeepAll(s, IsNotMark);
  }

  lemma NormalizeNameIdempotent(name: string)
    ensures NormalizeName(NormalizeName(name)) == NormalizeName(name)
  {
    NormalizedNameIsNormal(name);
    NormalNameIsFixed(NormalizeName(name));
  }

  // ----- the words of a name ---------------------------------------------------------------------

  /** The next word character comes before any white space. */
  predicate Touching(s: string) {
    s != [] && !IsRegexSpace(s[0]) && (IsWord(s[0]) || Touching(s[1..]))
  }

  /** Word characters `u` put in front of a text with words `w`: they lengthen the first word if that
      is what the text starts with. */
  function InFront(u: string, w: seq<string>, touching: bool): seq<string>
    requires touching ==> w != []
  {
    if touching then [u + w[0]] + w[1..] else [u] + w
  }

  /** The stretches of `s` between white space, folded, without anything but word characters; empty ones
      are left out. */
  function Words(s: string): (w: seq<string>)
    ensures Touching(s) ==> w != []
    ensures forall k :: 0 <= k < |w| ==> w[k] != ""
  {
    if s == [] then []
    else
      var rest := Words(s[1..]);
      if !IsWord(s[0]) then rest
      else InFront([ToLower(s[0])], rest, Touching(s[1..]))
  }

  function Join(w: seq<string>): string {
    if w == [] then "" else if |w| == 1 then w[0] else w[0] + " " + Join(w[1..])
  }

  /** A normalised name is the words of the name, in order, with one blank between any two. */
  lemma NormalizeNameJoinsWords(name: string)
    ensures NormalizeName(name) == Join(Words(name))
  {
    var trimmed := TrimSpace(name);
    var kept := Keep(Lower(trimmed), SurvivesPunctuation);
    var collapsed := Collapse(kept);
    MarkPassIsIdle(name);
    NormalizedNameIsNormal(name);
    WordsOfTrim(name);
    WordsOfKept(trimmed);
    WordsOfCollapse(kept);
    WordsOfTrim(collapsed);
    hide Words, Touching, Join;
    JoinOfWords(NormalizeName(name));
  }

  lemma {:induction false} WordsOfTrimLeft(s: string)
    ensures Words(TrimLeft(s)) == Words(s)
  {
    if s != [] && IsSpace(s[0]) {
      WordsOfTrimLeft(s[1..]);
    }
  }

  lemma {:induction false} NoWordAtEnd(s: string, c: char)
    requires !IsWord(c)
    ensures Words(s + [c]) == Words(s) && Touching(s + [c]) == Touching(s)
  {
    if s != [] {
      assert (s + [c])[1..] == s[1..] + [c];
      NoWordAtEnd(s[1..], c);
    }
  }

  lemma {:induction false} WordsOfTrimRight(s: string)
    ensures Words(TrimRight(s)) == Words(s)
  {
    if s != [] && IsSpace(s[|s| - 1]) {
      var n := |s| - 1;
      assert s == s[..n] + [s[n]];
      NoWordAtEnd(s[..n], s[n]);
      WordsOfTrimRight(s[..n]);
    }
  }

  lemma WordsOfTrim(s: string)
    ensures Words(TrimSpace(s)) == Words(s)
  {
    WordsOfTrimLeft(s);
    WordsOfTrimRight(TrimLeft(s));
  }

  lemma {:induction false} WordsOfKept(s: string)
    ensures var t := Keep(Lower(s), SurvivesPunctuation); Words(t) == Words(s) && Touching(t) == Touching(s)
  {
    if s != [] {
      WordsOfKept(s[1..]);
      assert Lower(s)[1..] == Lower(s[1..]);
      var t := Keep(Lower(s), SurvivesPunctuation);
      var u := Keep(Lower(s[1..]), SurvivesPunctuation);
      assert t == if SurvivesPunctuation(s[0]) then [ToLower(s[0])] + u else u;
      if SurvivesPunctuation(s[0]) {
        assert t[1..] == u;
      }
    }
  }

  lemma {:induction false} WordsOfCollapse(s: string)
    ensures Words(Collapse(s)) == Words(s) && Touching(Collapse(s)) == Touching(s)
  {
    if s != [] {
      WordsOfCollapse(s[1..]);
      var t := Collapse(s[1..]);
      assert ([s[0]] + t)[1..] == t && ([' '] + t)[1..] == t;
    }
  }

  lemma {:induction false} JoinOfWords(s: string)
    requires SingleSpaced(s) && (s != [] ==> s[|s| - 1] != ' ')
    ensures s == (if s != [] && s[0] == ' ' then " " else "") + Join(Words(s))
    ensures Touching(s) <==> s != [] && s[0] != ' '
  {
    if s != [] {
      assert NameChar(s[0]);
      var t := s[1..];
      SliceIsSingleSpaced(s, 1, |s|);
      assert s[1..|s|] == t;
      JoinOfWords(t);
      assert s == [s[0]] + t;
      if t != [] {
        assert s[1 - 1] != ' ' || s[1] != ' ';
      }
      if s[0] != ' ' {
        PrependToJoin(s[0], Words(t));
      }
    }
  }

  lemma PrependToJoin(c: char, w: seq<string>)
    ensures Join([[c]] + w) == if w == [] then [c] else [c] + " " + Join(w)
    ensures w != [] ==> Join([[c] + w[0]] + w[1..]) == [c] + Join(w)
  {
    assert ([[c]] + w)[1..] == w;
    if |w| > 1 {
      assert ([[c] + w[0]] + w[1..])[1..] == w[1..];
      assert [c] + (w[0] + " " + Join(w[1..])) == ([c] + w[0]) + " " + Join(w[1..]);
    } else if |w| == 1 {
      assert [[c] + w[0]] + w[1..] == [[c] + w[0]];
    }
  }

  /** Between two words every kind of white space counts the same; any other sign that is no word
      character glues them together. */
  lemma NameSeparators(u: string, c: char, v: string)
    requires u != [] && v != [] && !IsWord(c)
    requires forall k :: 0 <= k < |u| ==> IsWord(u[k])
    requires forall k :: 0 <= k < |v| ==> IsWord(v[k])
    ensures NormalizeName(u + [c] + v) ==
            if c in "\t\n\U{0C}\r " then Lower(u) + " " + Lower(v) else Lower(u) + Lower(v)
  {
    var s := u + [c] + v;
    NormalizeNameJoinsWords(s);
    hide NormalizeName, Lower;
    WordsInFront(v, "");
    assert v + "" == v;
    assert s == u + ([c] + v) && ([c] + v)[1..] == v;
    hide IsWord;
    WordsInFront(u, [c] + v);
    assert Words([c] + v) == [Lower(v)] && Touching([c] + v) == !IsRegexSpace(c);
    assert c in "\t\n\U{0C}\r " <==> IsRegexSpace(c);
    hide Words, Touching, IsRegexSpace;
  }

  lemma {:induction false} WordsInFront(u: string, t: string)
    requires u != [] && forall k :: 0 <= k < |u| ==> IsWord(u[k])
    ensures Touching(u + t)
    ensures Words(u + t) == InFront(Lower(u), Words(t), Touching(t))
  {
    var x, u' := u[0], u[1..];
    hide Words, Touching, Lower, IsWord, InFront;
    assert u + t == [x] + (u' + t);
    WordStep(x, u' + t);
    LowerStep(u);
    if u' == [] {
      LowerNothing();
      assert u' + t == t;
      assert Lower(u) == [ToLower(x)];
    } else {
      WordsInFront(u', t);
      InFrontTwice([ToLower(x)], Lower(u'), Words(t), Touching(t));
    }
  }

  lemma InFrontTwice(x: string, u: string, w: seq<string>, touching: bool)
    requires touching ==> w != []
    ensures InFront(u, w, touching) != [] && InFront(x, InFront(u, w, touching), true) == InFront(x + u, w, touching)
  {
    if touching {
      assert x + (u + w[0]) == x + u + w[0];
    }
  }

  lemma WordStep(x: char, t: string)
    requires IsWord(x)
    ensures Touching([x] + t)
    ensures Words([x] + t) == InFront([ToLower(x)], Words(t), Touching(t))
  {
    assert ([x] + t)[1..] == t;
  }

  lemma LowerStep(u: string)
    requires u != []
    ensures Lower(u) == [ToLower(u[0])] + Lower(u[1..])
  {
  }

  lemma LowerNothing()
    ensures Lower("") == ""
  {
  }

  /** The alphabet of normalised names: small ASCII letters, digits, underscore, blank. */
  lemma NameAlphabet(name: string, c: char)
    ensures c in NormalizeName(name) ==> 'a' <= c <= 'z' || '0' <= c <= '9' || c == '_' || c == ' '
    ensures 'a' <= c <= 'z' || '0' <= c <= '9' || c == '_' ==> NormalizeName([c]) == [c]
  {
    NormalizedNameIsNormal(name);
    if 'a' <= c <= 'z' || '0' <= c <= '9' || c == '_' {
      NormalNameIsFixed([c]);
    }
  }

  // ----- last word -------------------------------------------------------------------------------

  /** The longest suffix without white space. */
  function FinalWord(s: string): string {
    if s == [] || IsSpace(s[|s| - 1]) then [] else FinalWord(s[..|s| - 1]) + [s[|s| - 1]]
  }

  /** The last of the white-space separated fields, or "" if there is none. */
  function LastToken(s: string): string {
    FinalWord(TrimRight(s))
  }

  lemma {:induction false} FinalWordIsSuffix(s: string) returns (i: nat)
    ensures i <= |s| && FinalWord(s) == s[i..]
    ensures forall k :: i <= k < |s| ==> !IsSpace(s[k])
    ensures i == 0 || IsSpace(s[i - 1])
  {
    if s == [] || IsSpace(s[|s| - 1]) {
      i := |s|;
    } else {
      var n := |s| - 1;
      i := FinalWordIsSuffix(s[..n]);
      assert s[i..] == s[..n][i..] + [s[n]];
    }
  }

  /** The last token is the last stretch without white space; only white space follows it. */
  lemma LastTokenIsLast(s: string) returns (i: nat, j: nat)
    ensures i <= j <= |s| && LastToken(s) == s[i..j]
    ensures forall k :: i <= k < j ==> !IsSpace(s[k])
    ensures forall k :: j <= k < |s| ==> IsSpace(s[k])
    ensures i == 0 || IsSpace(s[i - 1])
    ensures i == j ==> j == 0
  {
    hide IsSpace;
    j := TrimRightIsPrefix(s);
    hide FinalWord, TrimRight;
    i := FinalWordIsSuffix(s[..j]);
    assert s[..j][i..] == s[i..j];
    assert forall k :: 0 <= k < j ==> s[..j][k] == s[k];
    assert LastToken(s) == FinalWord(s[..j]);
  }
}
