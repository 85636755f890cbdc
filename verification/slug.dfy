/** Organization slugs (server/src/services/auth.service.ts, uniqueSlug): a base made from the name, then a search. */
module Slug {
  import opened Keys
  import opened Wrappers

  const MAX_LENGTH := 40

  // ---------------------------------------------------------------- the base

  predicate Plain(c: char) {
    'a' <= c <= 'z' || '0' <= c <= '9'
  }

  predicate SlugChars(s: string) {
    forall i :: 0 <= i < |s| ==> Plain(s[i]) || s[i] == '-'
  }

  predicate NoDoubleDash(s: string) {
    forall i, j :: 0 <= i && j == i + 1 < |s| ==> !(s[i] == '-' && s[j] == '-')
  }

  function Extended(before: string, c: char): string {
    if Plain(c) then before + [c]
    else if before != "" && before[|before| - 1] == '-' then before
    else before + "-"
  }

  /** Lower-cased, with every run of other characters made one dash. */
  function Dashed(name: string): (s: string)
    ensures SlugChars(s) && NoDoubleDash(s) && |s| <= |name|
  {
    if name == "" then "" else Extended(Dashed(name[..|name| - 1]), Lower(name[|name| - 1]))
  }

  function TrimLeft(s: string): string {
    if s != "" && s[0] == '-' then TrimLeft(s[1..]) else s
  }

  function TrimRight(s: string): string {
    if s != "" && s[|s| - 1] == '-' then TrimRight(s[..|s| - 1]) else s
  }

  function Base(name: string): string {
    var t := TrimRight(TrimLeft(Dashed(name)));
    var cut := if |t| > MAX_LENGTH then t[..MAX_LENGTH] else t;
    if cut == "" then "org" else cut
  }

  lemma {:induction false} TrimLeftIs(s: string)
    requires SlugChars(s) && NoDoubleDash(s)
    ensures var t := TrimLeft(s); SlugChars(t) && NoDoubleDash(t) && (t != "" ==> t[0] != '-')
  {
    if s != "" && s[0] == '-' {
      assert forall i :: 0 <= i < |s[1..]| ==> s[1..][i] == s[i + 1];
      TrimLeftIs(s[1..]);
    }
  }

  lemma {:induction false} TrimRightIs(s: string)
    ensures TrimRight(s) <= s && (TrimRight(s) != "" ==> TrimRight(s)[|TrimRight(s)| - 1] != '-')
  {
    if s != "" && s[|s| - 1] == '-' { TrimRightIs(s[..|s| - 1]); }
  }

  /** A base is never empty, fits the column, starts with a letter or digit and holds no two dashes in a row; it ends in
      a dash only when it was cut at the limit. */
  lemma BaseIsSlug(name: string)
    ensures var b := Base(name);
            && 0 < |b| <= MAX_LENGTH && SlugChars(b) && NoDoubleDash(b) && b[0] != '-'
            && (b[|b| - 1] == '-' ==> |b| == MAX_LENGTH)
  {
    var d := Dashed(name);
    TrimLeftIs(d);
    TrimRightIs(TrimLeft(d));
    hide Dashed, TrimLeft, TrimRight;
  }

  // ---------------------------------------------------------------- what a base says

  /** The runs of letters and digits of a text. */
  function Words(s: string): seq<string> {
    if s == "" then []
    else
      var n := |s| - 1;
      MoreWords(Words(s[..n]), n > 0 && Plain(s[n - 1]), s[n])
  }

  /** One more character: it goes to the last word if that is still open. */
  function MoreWords(words: seq<string>, open: bool, c: char): seq<string> {
    if !Plain(c) then words
    else if open && words != [] then words[|words| - 1 := words[|words| - 1] + [c]]
    else words + [[c]]
  }

  function WithDashes(words: seq<string>): string {
    if words == [] then ""
    else if |words| == 1 then words[0]
    else WithDashes(words[..|words| - 1]) + "-" + words[|words| - 1]
  }

  function LowerAll(name: string): (s: string)
    ensures |s| == |name|
  {
    seq(|name|, i requires 0 <= i < |name| => Lower(name[i]))
  }

  lemma {:induction false} WordsArePlain(s: string)
    ensures forall w :: w in Words(s) ==> w != "" && forall i :: 0 <= i < |w| ==> Plain(w[i])
    ensures Words(s) == [] ==> forall i :: 0 <= i < |s| ==> !Plain(s[i])
  {
    if s != "" { WordsArePlain(s[..|s| - 1]); }
  }

  /** Joined words grow at their end. */
  lemma {:induction false} WithDashesGrow(words: seq<string>, c: char)
    ensures WithDashes(words + [[c]]) == (if words == [] then "" else WithDashes(words) + "-") + [c]
    ensures words != [] ==>
              WithDashes(words[|words| - 1 := words[|words| - 1] + [c]]) == WithDashes(words) + [c]
  {
    var n := |words| - 1;
    assert (words + [[c]])[..|words|] == words;
    if words != [] {
      var longer := words[n := words[n] + [c]];
      assert longer[..n] == words[..n];
    }
  }

  /** Joined words with or without a dash in front and behind. */
  function Around(words: seq<string>, front: bool, behind: bool): string {
    (if front then "-" else "") + WithDashes(words) + if behind then "-" else ""
  }

  lemma AroundGrows(words: seq<string>, front: bool, c: char)
    requires words != []
    ensures Around(words, front, true) + [c] == Around(words + [[c]], front, false)
    ensures Around(words, front, false) + [c]
         == Around(words[|words| - 1 := words[|words| - 1] + [c]], front, false)
    ensures Around(words, front, false) + "-" == Around(words, front, true)
  {
    WithDashesGrow(words, c);
    hide WithDashes;
    var lead, j := if front then "-" else "", WithDashes(words);
    assert lead + j + "-" + [c] == lead + (j + "-" + [c]);
    assert lead + j + [c] == lead + (j + [c]);
    assert lead + j + "" == lead + j;
  }

  lemma AroundEnds(words: seq<string>, front: bool)
    requires words != [] && forall w :: w in words ==> w != "" && forall i :: 0 <= i < |w| ==> Plain(w[i])
    ensures var s := Around(words, front, false); s != "" && Plain(s[|s| - 1])
    ensures var s := Around(words, front, true); s != "" && s[|s| - 1] == '-'
  {
    WithDashesEnds(words);
  }

  lemma AroundExtends(words: seq<string>, front: bool, open: bool, c: char)
    requires words != [] && forall w :: w in words ==> w != "" && forall i :: 0 <= i < |w| ==> Plain(w[i])
    ensures Extended(Around(words, front, !open), c) == Around(MoreWords(words, open, c), front, !Plain(c))
  {
    AroundGrows(words, front, c);
    AroundEnds(words, front);
    hide Around;
  }

  /** d is the words of s joined, with a dash in front or behind where other characters stand. */
  predicate IsDashed(d: string, words: seq<string>, s: string) {
    if words == [] then d == (if s == "" then "" else "-")
    else s != "" && d == Around(words, !Plain(s[0]), !Plain(s[|s| - 1]))
  }

  lemma DashedStep(d: string, words: seq<string>, s: string, c: char)
    requires IsDashed(d, words, s) && (words == [] ==> forall i :: 0 <= i < |s| ==> !Plain(s[i]))
    requires forall w :: w in words ==> w != "" && forall i :: 0 <= i < |w| ==> Plain(w[i])
    ensures IsDashed(Extended(d, c), MoreWords(words, s != "" && Plain(s[|s| - 1]), c), s + [c])
  {
    if words == [] {
      FirstWord(c);
    } else {
      AroundExtends(words, !Plain(s[0]), Plain(s[|s| - 1]), c);
      assert MoreWords(words, Plain(s[|s| - 1]), c) != [];
    }
    hide Around, Extended, WithDashes;
    assert (s + [c])[|s|] == c && (s != "" ==> (s + [c])[0] == s[0]);
  }

  lemma {:induction false} WordsSnoc(s: string, c: char)
    ensures Words(s + [c]) == MoreWords(Words(s), s != "" && Plain(s[|s| - 1]), c)
  {
    var t := s + [c];
    assert t[..|s|] == s && t[|s|] == c && (s != "" ==> t[|s| - 1] == s[|s| - 1]);
    hide MoreWords, Plain;
  }

  lemma LowerSnoc(name: string)
    requires name != ""
    ensures LowerAll(name) == LowerAll(name[..|name| - 1]) + [Lower(name[|name| - 1])]
  {
    hide Lower;
  }

  lemma {:induction false} DashedAre(name: string)
    ensures IsDashed(Dashed(name), Words(LowerAll(name)), LowerAll(name))
  {
    if name != "" {
      hide IsDashed, Extended, Words, Plain, Lower, LowerAll;
      var init := name[..|name| - 1];
      var c := Lower(name[|name| - 1]);
      DashedAre(init);
      LowerSnoc(name);
      WordsSnoc(LowerAll(init), c);
      WordsArePlain(LowerAll(init));
      hide MoreWords;
      DashedStep(Dashed(init), Words(LowerAll(init)), LowerAll(init), c);
    } else {
      assert LowerAll(name) == "";
    }
  }

  lemma FirstWord(c: char)
    ensures forall open: bool :: MoreWords([], open, c) == if Plain(c) then [[c]] else []
    ensures Around([[c]], false, false) == [c] && Around([[c]], true, false) == "-" + [c]
    ensures Extended("", c) == if Plain(c) then [c] else "-"
    ensures Extended("-", c) == if Plain(c) then "-" + [c] else "-"
  {
    assert WithDashes([[c]]) == [c] && "" + [c] + "" == [c] && "-" + [c] + "" == "-" + [c];
  }

  lemma {:induction false} WithDashesEnds(words: seq<string>)
    requires forall w :: w in words ==> w != "" && forall i :: 0 <= i < |w| ==> Plain(w[i])
    ensures var t := WithDashes(words); words == [] <==> t == ""
    ensures var t := WithDashes(words); words != [] ==> Plain(t[0]) && Plain(t[|t| - 1])
  {
    if |words| > 1 { WithDashesEnds(words[..|words| - 1]); }
  }

  /** A base is the first 40 characters of the name's words, in lower case and joined by dashes, or "org" if there are
      none. */
  lemma BaseMeans(name: string)
    ensures var t := WithDashes(Words(LowerAll(name)));
            Base(name) == if t == "" then "org" else if |t| <= 40 then t else t[..40]
  {
    var words := Words(LowerAll(name));
    DashedAre(name);
    WordsArePlain(LowerAll(name));
    WithDashesEnds(words);
    DashedTrims(Dashed(name), words, LowerAll(name));
    hide Dashed, WithDashes, Words, LowerAll, Plain, TrimLeft, TrimRight, IsDashed;
  }

  lemma {:induction false} DashedTrims(d: string, words: seq<string>, s: string)
    requires IsDashed(d, words, s)
    requires var t := WithDashes(words); (words == [] <==> t == "") && (t != "" ==> Plain(t[0]) && Plain(t[|t| - 1]))
    ensures TrimRight(TrimLeft(d)) == WithDashes(words)
  {
    AroundIs(words);
    var t := WithDashes(words);
    if words == [] {
      assert "-" + t == "-";
    } else {
      var front, behind := !Plain(s[0]), !Plain(s[|s| - 1]);
      assert d == Around(words, front, behind);
    }
    hide WithDashes, Around, TrimLeft, TrimRight;
    TrimmedIs(t, d);
  }

  lemma {:induction false} AroundIs(words: seq<string>)
    ensures var t := WithDashes(words);
            && Around(words, false, false) == t && Around(words, true, false) == "-" + t
            && Around(words, false, true) == t + "-" && Around(words, true, true) == "-" + t + "-"
  {
    hide WithDashes;
    var t := WithDashes(words);
    assert "" + t + "" == t && "" + t + "-" == t + "-" && "-" + t + "" == "-" + t;
  }

  lemma {:induction false} TrimmedIs(t: string, d: string)
    requires t == "" || (t[0] != '-' && t[|t| - 1] != '-')
    requires d in {t, "-" + t, t + "-", "-" + t + "-"}
    requires t == "" ==> d in {"", "-"}
    ensures TrimRight(TrimLeft(d)) == t
  {
    assert ("-" + t)[1..] == t && ("-" + t + "-")[1..] == t + "-" && (t + "-")[..|t|] == t;
  }

  // ---------------------------------------------------------------- the search

  /** base, base-2, base-3, ... */
  function Candidate(base: string, k: nat): string {
    if k == 1 then base else base + "-" + Decimal(k)
  }

  lemma CandidatesDiffer(base: string, j: nat, k: nat)
    requires 1 <= j && 1 <= k && Candidate(base, j) == Candidate(base, k)
    ensures j == k
  {
    var c, d := Candidate(base, j), Candidate(base, k);
    if j == 1 || k == 1 {
      assert |c| == |base| <==> j == 1;
      assert |d| == |base| <==> k == 1;
    } else {
      assert c[|base| + 1..] == Decimal(j) && d[|base| + 1..] == Decimal(k);
      DecimalInjective(j, k);
    }
  }

  /** The first n candidates. */
  ghost function Tried(base: string, n: nat): set<string> {
    if n == 0 then {} else Tried(base, n - 1) + {Candidate(base, n)}
  }

  lemma {:induction false} TriedNone(base: string)
    ensures Tried(base, 0) == {}
  {
  }

  lemma {:induction false} TriedStep(base: string, n: nat)
    requires n > 0
    ensures Tried(base, n) == Tried(base, n - 1) + {Candidate(base, n)}
  {
  }

  lemma {:induction false} TriedAre(base: string, n: nat)
    ensures |Tried(base, n)| == n
    ensures forall t :: t in Tried(base, n) <==> exists k: nat :: 1 <= k <= n && Candidate(base, k) == t
  {
    hide Candidate;
    if n > 0 {
      TriedAre(base, n - 1);
      forall k: nat | 1 <= k < n ensures Candidate(base, k) != Candidate(base, n) {
        if Candidate(base, k) == Candidate(base, n) { CandidatesDiffer(base, k, n); }
      }
    }
  }

  /** The first free name; found within one more probe than there are slugs in the table. */
  method UniqueSlug(name: string, existing: set<string>) returns (slug: string)
    ensures slug !in existing
    ensures exists n: nat :: 1 <= n <= |existing| + 1 && slug == Candidate(Base(name), n)
                             && forall k: nat :: 1 <= k < n ==> Candidate(Base(name), k) in existing
  {
    hide Base, Tried;
    var base := Base(name);
    slug := base;
    var n := 1;
    TriedNone(base);
    while slug in existing
      invariant 1 <= n && slug == Candidate(base, n) && Tried(base, n - 1) <= existing
      decreases |existing| + 1 - n
    {
      TriedAre(base, n);
      TriedStep(base, n);
      SubsetSize(Tried(base, n), existing);
      n := n + 1;
      slug := base + "-" + Decimal(n);
    }
    TriedAre(base, n - 1);
    SubsetSize(Tried(base, n - 1), existing);
  }
}
