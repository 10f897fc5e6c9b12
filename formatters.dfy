/** The pure string formatters of the auth screens. Case mapping covers ASCII letters only. */
module Formatters {
  import opened JsString

  /** `formatEmail`: trimmed and lower-cased. */
  function FormatEmail(email: string): (r: string)
    ensures NoEdgeSpace(r)
    ensures forall k :: 0 <= k < |r| ==> !IsAsciiUpper(r[k])
    ensures |r| <= |email|
  {
    var t := Trim(email);
    var r := ToLower(t);
    if t == [] then r
    else
      CaseKeepsSpace(t[0]);
      CaseKeepsSpace(t[|t| - 1]);
      assert r[0] == LowerChar(t[0]) && r[|r| - 1] == LowerChar(t[|t| - 1]);
      r
  }

  /** Formatting a formatted email changes nothing. */
  lemma FormatEmailIdempotent(email: string)
    ensures FormatEmail(FormatEmail(email)) == FormatEmail(email)
  {
    TrimNoEdgeSpace(FormatEmail(email));
    ToLowerIdempotent(Trim(email));
  }

  /**
   * A formatted email is the lower-cased text between the input's leading and trailing white space:
   * only white space is cut, and only from the ends.
   */
  lemma FormatEmailContent(email: string)
    ensures var i := LeadingSpace(email);
            var j := i + |FormatEmail(email)|;
            && j <= |email| && FormatEmail(email) == ToLower(email[i..j])
            && AllSpace(email[..i]) && AllSpace(email[j..])
  {
    TrimSlice(email);
  }

  /** White space other than `' '` at `k`. */
  predicate OtherSpaceAt(s: string, k: int) {
    0 <= k < |s| && IsSpace(s[k]) && s[k] != ' '
  }

  /** A space at `k` and again at `k + 1`. */
  predicate DoubleSpaceAt(s: string, k: int) {
    0 <= k && k + 1 < |s| && s[k] == ' ' && s[k + 1] == ' '
  }

  /** No white space other than `' '`, and never two white-space characters in a row. */
  predicate SingleSpaced(s: string) {
    forall k | 0 <= k < |s| :: !OtherSpaceAt(s, k) && !DoubleSpaceAt(s, k)
  }

  /** Putting one character in front of a single-spaced string keeps it single-spaced when it adds no run. */
  lemma SingleSpacedCons(c: char, t: string)
    requires SingleSpaced(t)
    requires IsSpace(c) ==> c == ' ' && (t == [] || !IsSpace(t[0]))
    ensures SingleSpaced([c] + t)
  {
    var s := [c] + t;
    forall k | 0 <= k < |s| ensures !OtherSpaceAt(s, k) && !DoubleSpaceAt(s, k) {
      if k > 0 {
        assert s[k] == t[k - 1];
        assert !OtherSpaceAt(t, k - 1) && !DoubleSpaceAt(t, k - 1);
        if k + 1 < |s| { assert s[k + 1] == t[k]; }
      } else if t != [] {
        assert s[1] == t[0];
        assert t[0] == ' ' ==> !OtherSpaceAt(t, 0);
      }
    }
  }

  /** The characters of `s` that are not white space, in order. */
  function NonSpace(s: string): string
  {
    if s == [] then [] else (if IsSpace(s[0]) then [] else [s[0]]) + NonSpace(s[1..])
  }

  lemma {:induction false} NonSpaceAppend(a: string, b: string)
    ensures NonSpace(a + b) == NonSpace(a) + NonSpace(b)
  {
    if a != [] {
      assert (a + b)[0] == a[0] && (a + b)[1..] == a[1..] + b;
      NonSpaceAppend(a[1..], b);
    } else {
      assert a + b == b;
    }
  }

  lemma {:induction false} NonSpaceTrimStart(s: string)
    ensures NonSpace(TrimStart(s)) == NonSpace(s)
  {
    if s != [] && IsSpace(s[0]) {
      NonSpaceTrimStart(s[1..]);
    }
  }

  lemma {:induction false} NonSpaceTrimEnd(s: string)
    ensures NonSpace(TrimEnd(s)) == NonSpace(s)
  {
    if s != [] && IsSpace(s[|s| - 1]) {
      var init := s[..|s| - 1];
      NonSpaceTrimEnd(init);
      assert s == init + [s[|s| - 1]];
      NonSpaceAppend(init, [s[|s| - 1]]);
    }
  }

  /** Trimming drops white space only. */
  lemma NonSpaceTrim(s: string)
    ensures NonSpace(Trim(s)) == NonSpace(s)
  {
    NonSpaceTrimStart(s);
    NonSpaceTrimEnd(TrimStart(s));
  }

  /**
   * `replace(/\s+/g, ' ')`: each maximal run of white space becomes one space. The result is
   * empty only for the empty input and starts and ends with white space exactly where the input does.
   */
  function CollapseSpaces(s: string): (r: string)
    ensures r == [] <==> s == []
    ensures s != [] ==> (IsSpace(r[0]) <==> IsSpace(s[0]))
    ensures s != [] ==> (IsSpace(r[|r| - 1]) <==> IsSpace(s[|s| - 1]))
    decreases |s|
  {
    if s == [] then []
    else if IsSpace(s[0]) then
      TrimStartSuffix(s[1..]);
      TrimStartDropsSpace(s[1..]);
      " " + CollapseSpaces(TrimStart(s[1..]))
    else
      [s[0]] + CollapseSpaces(s[1..])
  }

  /** Collapsing leaves no white space but `' '` and never two spaces in a row. */
  lemma {:induction false} CollapseIsSingleSpaced(s: string)
    ensures SingleSpaced(CollapseSpaces(s))
    decreases |s|
  {
    if s != [] {
      if IsSpace(s[0]) {
        var rest := TrimStart(s[1..]);
        CollapseIsSingleSpaced(rest);
        SingleSpacedCons(' ', CollapseSpaces(rest));
      } else {
        CollapseIsSingleSpaced(s[1..]);
        SingleSpacedCons(s[0], CollapseSpaces(s[1..]));
      }
    }
  }

  /** Collapsing keeps every character that is not white space, in order. */
  lemma {:induction false} CollapseKeepsText(s: string)
    ensures NonSpace(CollapseSpaces(s)) == NonSpace(s)
    decreases |s|
  {
    if s != [] {
      if IsSpace(s[0]) {
        var rest := TrimStart(s[1..]);
        CollapseKeepsText(rest);
        NonSpaceTrimStart(s[1..]);
        assert (" " + CollapseSpaces(rest))[1..] == CollapseSpaces(rest);
      } else {
        CollapseKeepsText(s[1..]);
        NonSpaceAppend([s[0]], CollapseSpaces(s[1..]));
      }
    }
  }

  lemma SingleSpacedTail(s: string)
    requires s != [] && SingleSpaced(s)
    ensures SingleSpaced(s[1..])
  {
    var t := s[1..];
    forall k | 0 <= k < |t| ensures !OtherSpaceAt(t, k) && !DoubleSpaceAt(t, k) {
      assert t[k] == s[k + 1];
      assert !OtherSpaceAt(s, k + 1) && !DoubleSpaceAt(s, k + 1);
      if k + 1 < |t| { assert t[k + 1] == s[k + 2]; }
    }
  }

  /** A single-spaced string is a fixed point of collapsing. */
  lemma {:induction false} CollapseSingleSpaced(s: string)
    requires SingleSpaced(s)
    ensures CollapseSpaces(s) == s
  {
    if s != [] {
      var t := s[1..];
      SingleSpacedTail(s);
      CollapseSingleSpaced(t);
      if IsSpace(s[0]) {
        assert !OtherSpaceAt(s, 0) && !DoubleSpaceAt(s, 0);
        if t != [] {
          assert t[0] == s[1];
          assert !OtherSpaceAt(s, 1);
        }
        assert TrimStart(t) == t;
        assert CollapseSpaces(s) == " " + t;
      } else {
        assert CollapseSpaces(s) == [s[0]] + t;
      }
      assert s == [s[0]] + t;
    }
  }

  /**
   * The words of `s`: its maximal runs of characters that are not white space, in order. A
   * character that is not white space ends a word when the next one is white space or the text
   * ends; otherwise it opens the word the rest of the text starts with.
   */
  function Words(s: string): (r: seq<string>)
    ensures s != [] && !IsSpace(s[0]) ==> r != []
    decreases |s|
  {
    if s == [] then []
    else if IsSpace(s[0]) then Words(s[1..])
    else if |s| == 1 || IsSpace(s[1]) then [[s[0]]] + Words(s[1..])
    else
      var w := Words(s[1..]);
      [[s[0]] + w[0]] + w[1..]
  }

  /** Every word is non-empty and holds no white space. */
  lemma {:induction false} WordsHaveNoSpace(s: string, k: nat)
    requires k < |Words(s)|
    ensures Words(s)[k] != []
    ensures forall i :: 0 <= i < |Words(s)[k]| ==> !IsSpace(Words(s)[k][i])
    decreases |s|
  {
    var rest := s[1..];
    if IsSpace(s[0]) {
      WordsHaveNoSpace(rest, k);
    } else if |s| == 1 || IsSpace(s[1]) {
      if k > 0 { WordsHaveNoSpace(rest, k - 1); }
    } else if k == 0 {
      WordsHaveNoSpace(rest, 0);
    } else {
      WordsHaveNoSpace(rest, k);
    }
  }

  /** Leading white space separates no words. */
  lemma {:induction false} WordsTrimStart(s: string)
    ensures Words(TrimStart(s)) == Words(s)
  {
    if s != [] && IsSpace(s[0]) {
      WordsTrimStart(s[1..]);
    }
  }

  /** A white-space character at the end separates no words. */
  lemma {:induction false} WordsSpaceAtEnd(s: string, c: char)
    requires IsSpace(c)
    ensures Words(s + [c]) == Words(s)
  {
    var t := s + [c];
    if s == [] {
      assert t[1..] == [];
    } else {
      assert t[1..] == s[1..] + [c];
      WordsSpaceAtEnd(s[1..], c);
      if |s| > 1 { assert t[1] == s[1]; }
    }
  }

  /** Trailing white space separates no words. */
  lemma {:induction false} WordsTrimEnd(s: string)
    ensures Words(TrimEnd(s)) == Words(s)
  {
    if s != [] && IsSpace(s[|s| - 1]) {
      var init := s[..|s| - 1];
      WordsTrimEnd(init);
      assert s == init + [s[|s| - 1]];
      WordsSpaceAtEnd(init, s[|s| - 1]);
    }
  }

  /** Trimming keeps the words. */
  lemma WordsTrim(s: string)
    ensures Words(Trim(s)) == Words(s)
  {
    WordsTrimStart(s);
    WordsTrimEnd(TrimStart(s));
  }

  /** Collapsing keeps the words: every run of white space still separates the words around it. */
  lemma {:induction false} CollapseKeepsWords(s: string)
    ensures Words(CollapseSpaces(s)) == Words(s)
    decreases |s|
  {
    if s != [] {
      var rest := s[1..];
      if IsSpace(s[0]) {
        var t := TrimStart(rest);
        CollapseKeepsWords(t);
        WordsTrimStart(rest);
        assert (" " + CollapseSpaces(t))[1..] == CollapseSpaces(t);
      } else {
        var c := CollapseSpaces(rest);
        CollapseKeepsWords(rest);
        var x := [s[0]] + c;
        assert x[1..] == c;
        if rest != [] { assert x[1] == c[0]; }
      }
    }
  }

  /** After a first character that is not white space, a single space is followed by a word. */
  lemma SpaceAfterFirst(s: string)
    requires NoEdgeSpace(s) && SingleSpaced(s) && |s| > 1 && IsSpace(s[1])
    ensures |s| > 2 && s[1] == ' ' && !IsSpace(s[2])
    ensures NoEdgeSpace(s[2..]) && SingleSpaced(s[2..])
  {
    assert !OtherSpaceAt(s, 1) && !DoubleSpaceAt(s, 1);
    assert !OtherSpaceAt(s, 2);
    SingleSpacedTail(s);
    SingleSpacedTail(s[1..]);
    assert s[1..][1..] == s[2..];
  }

  /** A single-spaced string without edge white space is its words joined by single spaces. */
  lemma {:induction false} JoinWords(s: string)
    requires NoEdgeSpace(s) && SingleSpaced(s)
    ensures Join(Words(s), " ") == s
    decreases |s|
  {
    if |s| > 1 {
      var rest := s[1..];
      if IsSpace(s[1]) {
        SpaceAfterFirst(s);
        var q := s[2..];
        assert rest[1..] == q;
        JoinWords(q);
        JoinCons([s[0]], Words(q), " ");
        assert s == [s[0]] + " " + q;
      } else {
        SingleSpacedTail(s);
        JoinWords(rest);
        var w := Words(rest);
        assert [w[0]] + w[1..] == w;
        JoinConsChar(s[0], w[0], w[1..], " ");
        assert s == [s[0]] + rest;
      }
    }
  }

  /**
   * `formatUsername`: trimmed, every run of white space made one space; the characters that are
   * not white space are kept, in order.
   */
  function FormatUsername(username: string): (r: string)
    ensures NoEdgeSpace(r) && SingleSpaced(r)
    ensures NonSpace(r) == NonSpace(username)
  {
    var t := Trim(username);
    NonSpaceTrim(username);
    CollapseKeepsText(t);
    CollapseIsSingleSpaced(t);
    CollapseSpaces(t)
  }

  /** Formatting a formatted user name changes nothing. */
  lemma FormatUsernameIdempotent(username: string)
    ensures FormatUsername(FormatUsername(username)) == FormatUsername(username)
  {
    var f := FormatUsername(username);
    TrimNoEdgeSpace(f);
    CollapseSingleSpaced(f);
  }

  /** A formatted user name is the name's words joined by single spaces. */
  lemma FormatUsernameWords(username: string)
    ensures FormatUsername(username) == Join(Words(username), " ")
  {
    var t := Trim(username);
    var f := FormatUsername(username);
    JoinWords(f);
    CollapseKeepsWords(t);
    WordsTrim(username);
  }

  /** `word.charAt(0).toUpperCase() + word.slice(1)`. */
  function CapitalizeFirst(word: string): string
  {
    if word == [] then [] else [UpperChar(word[0])] + word[1..]
  }

  function CapitalizeAll(words: seq<string>): (r: seq<string>)
    ensures |r| == |words|
  {
    seq(|words|, k requires 0 <= k < |words| => CapitalizeFirst(words[k]))
  }

  /** The character at `i` after capitalising the words of `s`: upper-cased where a word starts. */
  function CapitalizedAt(s: string, i: nat): char
    requires i < |s|
  {
    if i == 0 || s[i - 1] == ' ' then UpperChar(s[i]) else s[i]
  }

  /** As `CapitalizedAt`, but leaving the first word as it is. */
  function TailCapitalizedAt(s: string, i: nat): char
    requires i < |s|
  {
    if i > 0 && s[i - 1] == ' ' then UpperChar(s[i]) else s[i]
  }

  /** Split on spaces, capitalise every piece, join with spaces. */
  function CapJoin(s: string): string
  {
    Join(CapitalizeAll(Split(s, ' ')), " ")
  }

  /** Split on spaces, capitalise every piece but the first, join with spaces. */
  function CapJoinTail(s: string): string
  {
    var ps := Split(s, ' ');
    Join([ps[0]] + CapitalizeAll(ps[1..]), " ")
  }

  lemma CapitalizeAllCons(w: string, ws: seq<string>)
    ensures CapitalizeAll([w] + ws) == [CapitalizeFirst(w)] + CapitalizeAll(ws)
  {
    var l := CapitalizeAll([w] + ws);
    var r := [CapitalizeFirst(w)] + CapitalizeAll(ws);
    assert forall k | 0 <= k < |r| :: l[k] == r[k] by {
      forall k | 0 <= k < |r| ensures l[k] == r[k] {
        if k > 0 { assert ([w] + ws)[k] == ws[k - 1]; }
      }
    }
  }

  /** Capitalising and joining pieces behind an empty first piece only puts a space in front. */
  lemma CapJoinEmptyHead(pr: seq<string>)
    requires pr != []
    ensures Join(CapitalizeAll([""] + pr), " ") == " " + Join(CapitalizeAll(pr), " ")
    ensures Join([""] + CapitalizeAll(pr), " ") == " " + Join(CapitalizeAll(pr), " ")
  {
    CapitalizeAllCons("", pr);
    JoinCons("", CapitalizeAll(pr), " ");
  }

  /** A first piece starting with `c`: capitalising upper-cases `c`, leaving the first piece alone keeps it. */
  lemma CapJoinCharHead(c: char, w: string, ws: seq<string>)
    ensures Join(CapitalizeAll([[c] + w] + ws), " ") == [UpperChar(c)] + Join([w] + CapitalizeAll(ws), " ")
    ensures Join([[c] + w] + CapitalizeAll(ws), " ") == [c] + Join([w] + CapitalizeAll(ws), " ")
  {
    CapitalizeAllCons([c] + w, ws);
    assert ([c] + w)[1..] == w;
    JoinConsChar(UpperChar(c), w, CapitalizeAll(ws), " ");
    JoinConsChar(c, w, CapitalizeAll(ws), " ");
  }

  lemma CapStepSpace(s: string)
    requires s != [] && s[0] == ' '
    ensures CapJoin(s) == " " + CapJoin(s[1..])
    ensures CapJoinTail(s) == " " + CapJoin(s[1..])
  {
    var pr := Split(s[1..], ' ');
    assert Split(s, ' ') == [""] + pr;
    assert ([""] + pr)[1..] == pr;
    CapJoinEmptyHead(pr);
  }

  lemma CapStepChar(s: string)
    requires s != [] && s[0] != ' '
    ensures CapJoin(s) == [UpperChar(s[0])] + CapJoinTail(s[1..])
    ensures CapJoinTail(s) == [s[0]] + CapJoinTail(s[1..])
  {
    var pr := Split(s[1..], ' ');
    var ps := Split(s, ' ');
    assert ps == [[s[0]] + pr[0]] + pr[1..];
    assert ps[0] == [s[0]] + pr[0] && ps[1..] == pr[1..];
    CapJoinCharHead(s[0], pr[0], pr[1..]);
  }

  /**
   * Splitting on spaces, capitalising every piece and joining with spaces upper-cases exactly the
   * characters that start a word; capitalising every piece but the first does the same except at 0.
   */
  lemma {:induction false} CapitalizePieces(s: string)
    ensures |CapJoin(s)| == |s| && forall i :: 0 <= i < |s| ==> CapJoin(s)[i] == CapitalizedAt(s, i)
    ensures |CapJoinTail(s)| == |s| && forall i :: 0 <= i < |s| ==> CapJoinTail(s)[i] == TailCapitalizedAt(s, i)
  {
    if s != [] {
      var rest := s[1..];
      CapitalizePieces(rest);
      if s[0] == ' ' {
        CapStepSpace(s);
        forall i | 1 <= i < |s|
          ensures CapJoin(s)[i] == CapitalizedAt(s, i) && CapJoinTail(s)[i] == TailCapitalizedAt(s, i)
        {
          assert CapJoin(s)[i] == CapJoin(rest)[i - 1] == CapitalizedAt(rest, i - 1);
          assert i - 1 > 0 ==> rest[i - 2] == s[i - 1];
        }
      } else {
        CapStepChar(s);
        forall i | 1 <= i < |s|
          ensures CapJoin(s)[i] == CapitalizedAt(s, i) && CapJoinTail(s)[i] == TailCapitalizedAt(s, i)
        {
          assert CapJoin(s)[i] == CapJoinTail(rest)[i - 1] == TailCapitalizedAt(rest, i - 1);
          assert i - 1 > 0 ==> rest[i - 2] == s[i - 1];
        }
      }
    }
  }

  /**
   * `capitalizeWords`: lower-cases the text, then upper-cases the first character of every
   * space-separated word. Length and the positions of spaces are kept.
   */
  function CapitalizeWords(text: string): (r: string)
    ensures |r| == |text|
    ensures forall i :: 0 <= i < |text| ==>
              r[i] == if i == 0 || text[i - 1] == ' ' then UpperChar(LowerChar(text[i])) else LowerChar(text[i])
    ensures forall i :: 0 <= i < |text| ==> (r[i] == ' ' <==> text[i] == ' ')
  {
    var lower := ToLower(text);
    CapitalizePieces(lower);
    CapJoin(lower)
  }

  /** Each word of the result starts with no lower-case letter and continues with no upper-case one. */
  lemma CapitalizeWordsShape(text: string, i: nat)
    requires i < |text|
    ensures i == 0 || text[i - 1] == ' ' ==> !IsAsciiLower(CapitalizeWords(text)[i])
    ensures i > 0 && text[i - 1] != ' ' ==> !IsAsciiUpper(CapitalizeWords(text)[i])
  {
  }

  /**
   * `maskEmail`: the first character of the part before the first `@`, a star for each of its
   * other characters, `@`, and the part between the first and second `@`; the input itself when
   * either part is empty or missing.
   */
  function MaskEmail(email: string): string
  {
    var parts := Split(email, '@');
    var localPart := parts[0];
    if localPart == "" || |parts| < 2 || parts[1] == "" then email
    else [localPart[0]] + Repeat('*', |localPart| - 1) + "@" + parts[1]
  }

  /** Without an `@`, or with one at the start, the email is returned unchanged. */
  lemma MaskEmailUnchanged(email: string)
    requires '@' !in email || email[0] == '@'
    ensures MaskEmail(email) == email
  {
    if '@' !in email {
      SplitWithout(email, '@');
    }
  }

  /** With the first `@` at `i > 0`, the local part is masked and the next segment kept. */
  lemma MaskEmailAt(email: string, i: nat)
    requires 0 < i < |email| && email[i] == '@' && '@' !in email[..i]
    ensures var domain := Split(email[i + 1..], '@')[0];
            MaskEmail(email) == if domain == "" then email else [email[0]] + Repeat('*', i - 1) + "@" + domain
  {
    SplitFirst(email, '@', i);
  }

  /** The masked form of a local part of length `i` followed by `@` and the rest keeps both ends. */
  lemma MaskedShape(email: string, i: nat)
    requires 0 < i < |email| && email[i] == '@'
    ensures var r := [email[0]] + Repeat('*', i - 1) + "@" + email[i + 1..];
            && |r| == |email| && r[0] == email[0] && r[i..] == email[i..]
            && forall k :: 0 < k < i ==> r[k] == '*'
  {
    var head := [email[0]] + Repeat('*', i - 1);
    var r := head + "@" + email[i + 1..];
    assert r == head + ("@" + email[i + 1..]);
    assert r[i..] == "@" + email[i + 1..] == email[i..];
  }

  /** With exactly one `@`, masking keeps the length, the first character and everything from the `@` on. */
  lemma MaskEmailOneAt(email: string, i: nat)
    requires 0 < i && i + 1 < |email| && email[i] == '@' && '@' !in email[..i] && '@' !in email[i + 1..]
    ensures |MaskEmail(email)| == |email|
    ensures MaskEmail(email)[0] == email[0] && MaskEmail(email)[i..] == email[i..]
    ensures forall k :: 0 < k < i ==> MaskEmail(email)[k] == '*'
  {
    MaskEmailAt(email, i);
    SplitWithout(email[i + 1..], '@');
    MaskedShape(email, i);
  }

  /** `name.charAt(0).toUpperCase()`. */
  function Initial(name: string): string
  {
    if name == [] then [] else [UpperChar(name[0])]
  }

  /** `generateInitials`: the upper-cased first characters of the first two space-separated pieces. */
  function GenerateInitials(fullName: string): (r: string)
    ensures |r| <= 2
    ensures forall k :: 0 <= k < |r| ==> !IsAsciiLower(r[k])
  {
    var parts := Split(fullName, ' ');
    var initials := seq(|parts|, k requires 0 <= k < |parts| => Initial(parts[k]));
    var firstTwo := initials[..if |initials| < 2 then |initials| else 2];
    assert |firstTwo| == 2 ==> Join(firstTwo, "") == firstTwo[0] + firstTwo[1] by {
      if |firstTwo| == 2 { assert firstTwo[1..] == [firstTwo[1]]; }
    }
    Join(firstTwo, "")
  }

  /** The initials are those of the first piece and, when there is one, the second. */
  lemma InitialsFirstTwo(fullName: string)
    ensures var parts := Split(fullName, ' ');
            GenerateInitials(fullName) == Initial(parts[0]) + (if |parts| >= 2 then Initial(parts[1]) else [])
  {
    var parts := Split(fullName, ' ');
    var initials := seq(|parts|, k requires 0 <= k < |parts| => Initial(parts[k]));
    var firstTwo := initials[..if |initials| < 2 then |initials| else 2];
    if |parts| >= 2 {
      assert firstTwo == [Initial(parts[0]), Initial(parts[1])];
      assert firstTwo[1..] == [Initial(parts[1])];
      assert Join(firstTwo, "") == Initial(parts[0]) + "" + Initial(parts[1]);
      assert Initial(parts[0]) + "" == Initial(parts[0]);
    } else {
      assert firstTwo == [Initial(parts[0])];
      assert Initial(parts[0]) + [] == Initial(parts[0]);
    }
  }

  /** A name without spaces gives its one initial. */
  lemma InitialsOneWord(fullName: string)
    requires ' ' !in fullName
    ensures GenerateInitials(fullName) == Initial(fullName)
  {
    SplitWithout(fullName, ' ');
    InitialsFirstTwo(fullName);
    assert Initial(fullName) + [] == Initial(fullName);
  }

  /** `First Second...` gives the upper-cased first characters of the first two words. */
  lemma InitialsTwoWords(fullName: string, i: nat)
    requires 0 < i && i + 1 < |fullName| && fullName[i] == ' ' && ' ' !in fullName[..i] && fullName[i + 1] != ' '
    ensures GenerateInitials(fullName) == [UpperChar(fullName[0]), UpperChar(fullName[i + 1])]
  {
    SplitFirst(fullName, ' ', i);
    var rest := fullName[i + 1..];
    SplitHead(rest, ' ');
    var parts := Split(fullName, ' ');
    assert parts[0] == fullName[..i] && parts[1] == Split(rest, ' ')[0];
    assert Initial(parts[0]) == [UpperChar(fullName[0])];
    assert Initial(parts[1]) == [UpperChar(fullName[i + 1])];
    InitialsFirstTwo(fullName);
  }
}
