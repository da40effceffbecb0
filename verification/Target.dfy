/**
 The lexical path layer (crates/cursdel-core/src/target.rs): drive, UNC and POSIX paths as strings, `..` resolution,
 the protected-root test, and the printed form.
 */
module Target {
  import opened Wrappers

  datatype Prefix = Drive(letter: char) | Unc(server: string, share: string) | PosixAbsolute | Relative

  datatype LexicalPath = LexicalPath(prefix: Prefix, components: seq<string>)

  predicate IsSeparator(ch: char) {
    ch == '/' || ch == '\\'
  }

  predicate NoSeparator(s: string) {
    forall k :: 0 <= k < |s| ==> !IsSeparator(s[k])
  }

  // ---------------------------------------------------------------------------------------------------------------
  // Splitting
  // ---------------------------------------------------------------------------------------------------------------

  /** The pieces between separators; there is always at least one. */
  function SplitAnySeparator(s: string): (parts: seq<string>)
    ensures |parts| > 0
    ensures forall k :: 0 <= k < |parts| ==> NoSeparator(parts[k])
  {
    if |s| == 0 then [""]
    else
      var rest := SplitAnySeparator(s[1..]);
      if IsSeparator(s[0]) then [""] + rest else [[s[0]] + rest[0]] + rest[1..]
  }

  function Join(parts: seq<string>, sep: string): string {
    if |parts| == 0 then ""
    else if |parts| == 1 then parts[0]
    else parts[0] + sep + Join(parts[1..], sep)
  }

  lemma {:induction false} SplitPiece(piece: string, rest: string)
    requires NoSeparator(piece)
    ensures SplitAnySeparator(piece) == [piece]
    ensures forall sep :: IsSeparator(sep) ==>
              SplitAnySeparator(piece + [sep] + rest) == [piece] + SplitAnySeparator(rest)
  {
    if |piece| == 0 {
      forall sep | IsSeparator(sep)
        ensures SplitAnySeparator(piece + [sep] + rest) == [piece] + SplitAnySeparator(rest)
      {
        assert (piece + [sep] + rest)[1..] == rest;
      }
    } else {
      SplitPiece(piece[1..], rest);
      assert piece == [piece[0]] + piece[1..];
      forall sep | IsSeparator(sep)
        ensures SplitAnySeparator(piece + [sep] + rest) == [piece] + SplitAnySeparator(rest)
      {
        var s := piece + [sep] + rest;
        assert s[1..] == piece[1..] + [sep] + rest;
      }
    }
  }

  /** Splitting undoes joining, for pieces without separators. */
  lemma {:induction false} SplitJoin(parts: seq<string>, sep: char)
    requires IsSeparator(sep) && forall k :: 0 <= k < |parts| ==> NoSeparator(parts[k])
    ensures SplitAnySeparator(Join(parts, [sep])) == if |parts| == 0 then [""] else parts
  {
    if |parts| == 0 {
    } else if |parts| == 1 {
      SplitPiece(parts[0], "");
    } else {
      SplitJoin(parts[1..], sep);
      SplitPiece(parts[0], Join(parts[1..], [sep]));
      assert Join(parts, [sep]) == parts[0] + [sep] + Join(parts[1..], [sep]);
    }
  }

  // ---------------------------------------------------------------------------------------------------------------
  // Dots
  // ---------------------------------------------------------------------------------------------------------------

  predicate IsName(part: string) {
    part != "" && part != "." && part != ".."
  }

  /** What one part does to the components so far; `..` is absorbed at the root. */
  function Resolve1(stack: seq<string>, part: string): seq<string> {
    if part == "" || part == "." then stack
    else if part == ".." then (if |stack| == 0 then stack else stack[..|stack| - 1])
    else stack + [part]
  }

  function Resolved(parts: seq<string>): seq<string> {
    if |parts| == 0 then [] else Resolve1(Resolved(parts[..|parts| - 1]), parts[|parts| - 1])
  }

  method ResolveDotComponents(parts: seq<string>) returns (stack: seq<string>)
    ensures stack == Resolved(parts)
  {
    stack := [];
    for i := 0 to |parts|
      invariant stack == Resolved(parts[..i])
    {
      var part := parts[i];
      assert parts[..i + 1][..i] == parts[..i];
      if part == "" || part == "." {
        continue;
      } else if part == ".." {
        if |stack| > 0 {
          stack := stack[..|stack| - 1];
        }
      } else {
        stack := stack + [part];
      }
    }
    assert parts[..|parts|] == parts;
  }

  /** Names minus `..`. */
  function Balance(parts: seq<string>): int {
    if |parts| == 0 then 0
    else Balance(parts[..|parts| - 1]) + Step(parts[|parts| - 1])
  }

  function Step(part: string): int {
    if part == ".." then -1 else if IsName(part) then 1 else 0
  }

  /** Position j holds a name that no later `..` takes away. */
  ghost predicate Survives(parts: seq<string>, j: nat) {
    && j < |parts| && IsName(parts[j])
    && forall m: nat :: j < m <= |parts| ==> Balance(parts[j..m]) >= 1
  }

  /** The surviving names among the first n, judged by the whole list. */
  ghost function Survivors(parts: seq<string>, n: nat): seq<string>
    requires n <= |parts|
  {
    if n == 0 then []
    else Survivors(parts, n - 1) + if Survives(parts, n - 1) then [parts[n - 1]] else []
  }

  lemma {:induction false} BalanceSplits(parts: seq<string>, j: nat, m: nat, n: nat)
    requires j <= m <= n <= |parts|
    ensures Balance(parts[j..n]) == Balance(parts[j..m]) + Balance(parts[m..n])
  {
    if m < n {
      BalanceSplits(parts, j, m, n - 1);
      assert parts[j..n][..n - j - 1] == parts[j..n - 1] && parts[m..n][..n - m - 1] == parts[m..n - 1];
    } else {
      assert parts[m..n] == [];
    }
  }

  /** The balance of everything from position j on. */
  function From(parts: seq<string>, j: nat): int
    requires j <= |parts|
  {
    Balance(parts[j..|parts|])
  }

  lemma FromEnd(parts: seq<string>)
    ensures From(parts, |parts|) == 0 && Balance(parts[|parts|..]) == 0
  {
  }

  lemma FromStep(parts: seq<string>, j: nat)
    requires j < |parts|
    ensures From(parts, j) == Step(parts[j]) + From(parts, j + 1)
  {
    BalanceSplits(parts, j, j + 1, |parts|);
    assert parts[j..j + 1] == [parts[j]];
    assert [parts[j]][..0] == [];
  }

  /** How many names from position j on survive. */
  ghost function SurvivorsFrom(parts: seq<string>, j: nat): int
    requires j <= |parts|
  {
    |Survivors(parts, |parts|)| - |Survivors(parts, j)|
  }

  lemma SurvivorsStep(parts: seq<string>, j: nat)
    requires j < |parts|
    ensures SurvivorsFrom(parts, j) == SurvivorsFrom(parts, j + 1) + if Survives(parts, j) then 1 else 0
  {
  }

  /** It is the largest balance from any later position on, and for a survivor the balance from there on. */
  lemma {:induction false} SurvivorsCounted(parts: seq<string>, j: nat)
    requires j <= |parts|
    ensures forall k: nat :: j <= k <= |parts| ==> From(parts, k) <= SurvivorsFrom(parts, j)
    ensures exists k: nat :: j <= k <= |parts| && From(parts, k) == SurvivorsFrom(parts, j)
    ensures Survives(parts, j) ==> From(parts, j) == SurvivorsFrom(parts, j)
    decreases |parts| - j
  {
    hide Balance, Survivors;
    var n := |parts|;
    if j == n {
      FromEnd(parts);
      assert From(parts, n) == SurvivorsFrom(parts, n);
    } else {
      SurvivorsCounted(parts, j + 1);
      SurvivorsStep(parts, j);
      FromStep(parts, j);
      var k: nat :| j + 1 <= k <= n && From(parts, k) == SurvivorsFrom(parts, j + 1);
      if Survives(parts, j) {
        BalanceSplits(parts, j, k, n);
        assert Balance(parts[j..k]) >= 1;
        assert From(parts, j + 1) <= SurvivorsFrom(parts, j + 1);
        assert From(parts, j) == SurvivorsFrom(parts, j);
      } else if IsName(parts[j]) {
        var m: nat :| j < m <= n && Balance(parts[j..m]) < 1;
        BalanceSplits(parts, j, m, n);
        assert From(parts, m) <= SurvivorsFrom(parts, j + 1);
      } else {
        assert From(parts, j + 1) <= SurvivorsFrom(parts, j + 1);
      }
    }
  }

  /** One more part lets position j survive if it survived before and the balance stays positive. */
  lemma SurvivesOneMore(parts: seq<string>, x: string, j: nat)
    requires j < |parts|
    ensures Survives(parts + [x], j) <==> Survives(parts, j) && From(parts, j) + Step(x) >= 1
  {
    var more, n := parts + [x], |parts|;
    assert forall m: nat :: j <= m <= n ==> more[j..m] == parts[j..m];
    assert Balance(more[j..n + 1]) == From(parts, j) + Step(x) by {
      BalanceSplits(more, j, n, n + 1);
      assert more[n..n + 1] == [x] && [x][..0] == [];
    }
    if Survives(parts, j) && From(parts, j) + Step(x) >= 1 {
      forall m: nat | j < m <= n + 1 ensures Balance(more[j..m]) >= 1 {
        assert m <= n ==> more[j..m] == parts[j..m];
      }
    }
    if Survives(more, j) {
      forall m: nat | j < m <= n ensures Balance(parts[j..m]) >= 1 {
        assert Balance(more[j..m]) >= 1;
      }
    }
  }

  /** A `..` takes the last survivor away, if there is one; anything else takes nothing away. */
  lemma {:induction false} SurvivorsOneMore(parts: seq<string>, x: string, k: nat)
    requires k <= |parts|
    ensures var all, some := |Survivors(parts, |parts|)|, Survivors(parts, k);
            Survivors(parts + [x], k)
            == if x == ".." && |some| == all && all > 0 then some[..all - 1] else some
  {
    if k > 0 {
      SurvivorsOneMore(parts, x, k - 1);
      SurvivesOneMore(parts, x, k - 1);
      SurvivorsCounted(parts, k - 1);
      SurvivorsCounted(parts, k);
    }
  }

  /**
   What is left of a list of components is, in order, exactly the names that no later `..` cancels: those from which on
   the path never comes back up.
   */
  lemma {:induction false} ResolvedAreSurvivors(parts: seq<string>)
    ensures Resolved(parts) == Survivors(parts, |parts|)
  {
    if |parts| > 0 {
      var n := |parts| - 1;
      var before, x := parts[..n], parts[n];
      assert parts == before + [x];
      ResolvedAreSurvivors(before);
      SurvivorsOneMore(before, x, n);
      assert parts[n..n + 1] == [x] && [x][..0] == [];
      assert Balance([x]) == Step(x);
      assert Survives(parts, n) <==> IsName(x);
    }
  }

  lemma LastStep(parts: seq<string>, k: nat)
    requires k < |parts|
    ensures Balance(parts[k..]) == Balance(parts[..|parts| - 1][k..]) + Step(parts[|parts| - 1])
  {
    assert parts[k..][..|parts| - k - 1] == parts[..|parts| - 1][k..];
  }

  /** The depth of a resolved path is the largest balance of any suffix. */
  lemma {:induction false} DepthIsLargestBalance(parts: seq<string>)
    ensures forall k: nat :: k <= |parts| ==> Balance(parts[k..]) <= |Resolved(parts)|
    ensures exists k: nat :: k <= |parts| && Balance(parts[k..]) == |Resolved(parts)|
  {
    hide Balance;
    var n := |parts|;
    FromEnd(parts);
    if n > 0 {
      var before := parts[..n - 1];
      DepthIsLargestBalance(before);
      FromEnd(before);
      forall k: nat | k < n ensures Balance(parts[k..]) == Balance(before[k..]) + Step(parts[n - 1]) {
        LastStep(parts, k);
      }
      var k: nat :| k <= n - 1 && Balance(before[k..]) == |Resolved(before)|;
      assert Balance(parts[k..]) == |Resolved(before)| + Step(parts[n - 1]);
    }
  }

  /** Only real names are left. */
  lemma {:induction false} ResolvedAreNames(parts: seq<string>)
    ensures forall k :: 0 <= k < |Resolved(parts)| ==> IsName(Resolved(parts)[k]) && Resolved(parts)[k] in parts
  {
    if |parts| > 0 {
      ResolvedAreNames(parts[..|parts| - 1]);
    }
  }

  lemma {:induction false} NamesResolveToThemselves(parts: seq<string>)
    requires forall k :: 0 <= k < |parts| ==> IsName(parts[k])
    ensures Resolved(parts) == parts
  {
    if |parts| > 0 {
      NamesResolveToThemselves(parts[..|parts| - 1]);
    }
  }

  /** Somewhere along the way the path is k components or more above where it started. */
  predicate Falls(parts: seq<string>, k: nat) {
    exists m: nat :: m <= |parts| && Balance(parts[..m]) <= 0 - k
  }

  /** How far the path ever rises above where it started. */
  function Drop(parts: seq<string>): nat {
    if |parts| == 0 then 0
    else
      var before := Drop(parts[..|parts| - 1]);
      if -Balance(parts) > before then -Balance(parts) else before
  }

  lemma {:induction false} DropIsFalls(parts: seq<string>, k: nat)
    ensures Drop(parts) >= k <==> Falls(parts, k)
  {
    var n := |parts|;
    assert parts[..n] == parts;
    if n == 0 {
      assert Balance(parts[..0]) == 0;
    } else {
      var before := parts[..n - 1];
      DropIsFalls(before, k);
      forall m: nat | m < n ensures before[..m] == parts[..m] {
      }
      if Falls(before, k) {
        var m: nat :| m <= n - 1 && Balance(before[..m]) <= 0 - k;
        assert Balance(parts[..m]) <= 0 - k;
      }
      if Falls(parts, k) {
        var m: nat :| m <= n && Balance(parts[..m]) <= 0 - k;
        assert m < n ==> Balance(before[..m]) <= 0 - k;
      }
    }
  }

  /** The depth is what the path has come down since it was highest; and it rises further only from depth nothing. */
  lemma {:induction false} DropIsDepth(parts: seq<string>)
    ensures |Resolved(parts)| == Balance(parts) + Drop(parts)
    ensures |parts| > 0 ==>
              var before, x := parts[..|parts| - 1], parts[|parts| - 1];
              Drop(parts) == Drop(before) + if x == ".." && Resolved(before) == [] then 1 else 0
  {
    if |parts| > 0 {
      DropIsDepth(parts[..|parts| - 1]);
    }
  }

  function Kept(names: seq<string>, lost: nat): seq<string> {
    if lost <= |names| then names[..|names| - lost] else []
  }

  lemma ResolveOnto1(names: seq<string>, lost: nat, stack: seq<string>, x: string)
    ensures Resolve1(Kept(names, lost) + stack, x)
            == Kept(names, lost + if x == ".." && stack == [] then 1 else 0) + Resolve1(stack, x)
  {
    if x == ".." && stack != [] {
      assert (Kept(names, lost) + stack)[..|Kept(names, lost) + stack| - 1]
             == Kept(names, lost) + stack[..|stack| - 1];
    }
  }

  /** Names in front are used up as far as what follows rises above its start, and the rest of them stay. */
  lemma {:induction false} ResolvedOnto(names: seq<string>, parts: seq<string>)
    requires forall k :: 0 <= k < |names| ==> IsName(names[k])
    ensures Resolved(names + parts) == Kept(names, Drop(parts)) + Resolved(parts)
  {
    if |parts| == 0 {
      assert names + parts == names && names[..|names|] == names;
      NamesResolveToThemselves(names);
    } else {
      hide Resolve1, Kept, Drop;
      var n := |parts| - 1;
      assert (names + parts)[..|names| + n] == names + parts[..n];
      ResolvedOnto(names, parts[..n]);
      DropIsDepth(parts);
      ResolveOnto1(names, Drop(parts[..n]), Resolved(parts[..n]), parts[n]);
    }
  }

  /** Names in front leave no trace exactly when what follows rises above all of them. */
  lemma NamesVanish(names: seq<string>, parts: seq<string>)
    requires forall k :: 0 <= k < |names| ==> IsName(names[k])
    ensures Resolved(names + parts) == Resolved(parts) <==> Falls(parts, |names|)
  {
    ResolvedOnto(names, parts);
    DropIsFalls(parts, |names|);
    if Drop(parts) < |names| {
      assert |Resolved(names + parts)| > |Resolved(parts)|;
    }
  }

  // ---------------------------------------------------------------------------------------------------------------
  // Prefixes
  // ---------------------------------------------------------------------------------------------------------------

  predicate IsAsciiAlphabetic(ch: char) {
    'a' <= ch <= 'z' || 'A' <= ch <= 'Z'
  }

  function ToAsciiUppercase(ch: char): char {
    if 'a' <= ch <= 'z' then ch - 'a' + 'A' else ch
  }

  function EqualIgnoringCase(s: string, t: string): bool {
    |s| == |t| && forall k :: 0 <= k < |s| ==> ToAsciiUppercase(s[k]) == ToAsciiUppercase(t[k])
  }

  function StripPrefixCi(s: string, prefix: string): Option<string> {
    if |s| >= |prefix| && EqualIgnoringCase(s[..|prefix|], prefix) then Some(s[|prefix|..]) else None
  }

  /** Whether the string starts with one of the four spellings of the verbatim prefix, and what follows. */
  function AfterVerbatim(raw: string): Option<string> {
    var a := StripPrefixCi(raw, "\\\\?\\");
    var b := StripPrefixCi(raw, "//?/");
    var c := StripPrefixCi(raw, "\\\\?/");
    if a.Some? then a else if b.Some? then b else if c.Some? then c else StripPrefixCi(raw, "//?\\")
  }

  function AfterUnc(rest: string): Option<string> {
    var a := StripPrefixCi(rest, "UNC\\");
    if a.Some? then a else StripPrefixCi(rest, "UNC/")
  }

  function StripVerbatimPrefix(raw: string): (bool, string) {
    match AfterVerbatim(raw)
    case Some(rest) => if AfterUnc(rest).Some? then (true, AfterUnc(rest).value) else (false, rest)
    case None => (false, raw)
  }

  function StripDoubleSeparator(s: string): Option<string> {
    if |s| >= 2 && IsSeparator(s[0]) && IsSeparator(s[1]) then Some(s[2..]) else None
  }

  function DriveLetter(s: string): Option<char> {
    if |s| >= 2 && IsAsciiAlphabetic(s[0]) && s[1] == ':' then Some(ToAsciiUppercase(s[0])) else None
  }

  /** What follows the k-th separator, or nothing. */
  function AfterSeparators(s: string, k: nat): string {
    if k == 0 then s
    else if |s| == 0 then ""
    else AfterSeparators(s[1..], if IsSeparator(s[0]) then k - 1 else k)
  }

  function UncBody(body: string): (Prefix, string) {
    var parts := SplitAnySeparator(body);
    (Unc(parts[0], if |parts| > 1 then parts[1] else ""), AfterSeparators(body, 2))
  }

  /** What follows the second separator splits into the parts from the third on. */
  lemma {:induction false} AfterSeparatorsSplits(s: string, k: nat)
    ensures |SplitAnySeparator(s)| > k ==> SplitAnySeparator(AfterSeparators(s, k)) == SplitAnySeparator(s)[k..]
    ensures |SplitAnySeparator(s)| <= k ==> AfterSeparators(s, k) == ""
  {
    if k > 0 && |s| > 0 {
      AfterSeparatorsSplits(s[1..], if IsSeparator(s[0]) then k - 1 else k);
    }
  }

  /** The scan for the offset of the remainder. */
  method ParseUncBody(body: string) returns (prefix: Prefix, remainder: string)
    ensures (prefix, remainder) == UncBody(body)
    ensures var parts := SplitAnySeparator(body);
            if |parts| > 2 then SplitAnySeparator(remainder) == parts[2..] else remainder == ""
  {
    var parts := SplitAnySeparator(body);
    var server := parts[0];
    var share := if |parts| > 1 then parts[1] else "";
    var offset := 0;
    var seen := 0;
    var i := 0;
    while i < |body|
      invariant 0 <= i <= |body| && 0 <= seen < 2
      invariant AfterSeparators(body, 2) == AfterSeparators(body[i..], 2 - seen)
    {
      if IsSeparator(body[i]) {
        seen := seen + 1;
        if seen == 2 {
          offset := i + 1;
          assert body[i..][1..] == body[offset..];
          break;
        }
      }
      assert body[i..][1..] == body[i + 1..];
      i := i + 1;
    }
    remainder := if seen >= 2 then body[offset..] else "";
    prefix := Unc(server, share);
    AfterSeparatorsSplits(body, 2);
  }

  function SplitPrefix(raw: string): (Prefix, string) {
    var (verbatimUnc, rest) := StripVerbatimPrefix(raw);
    if verbatimUnc then UncBody(rest)
    else if StripDoubleSeparator(rest).Some? then UncBody(StripDoubleSeparator(rest).value)
    else if DriveLetter(rest).Some? then (Drive(DriveLetter(rest).value), rest[2..])
    else if |rest| > 0 && IsSeparator(rest[0]) then (PosixAbsolute, rest)
    else (Relative, rest)
  }

  function Classify(raw: string): LexicalPath {
    var (prefix, remainder) := SplitPrefix(raw);
    LexicalPath(prefix, Resolved(SplitAnySeparator(remainder)))
  }

  predicate IsProtectedRoot(p: LexicalPath) {
    match p.prefix
    case Relative => false
    case _ => |p.components| == 0
  }

  /**
   A path is a protected root exactly when it is absolute and, read from any component on, it goes up at least as often
   as down.
   */
  lemma ProtectedIffEverySuffixFalls(raw: string)
    ensures var parts := SplitAnySeparator(SplitPrefix(raw).1);
            IsProtectedRoot(Classify(raw))
            <==> SplitPrefix(raw).0 != Relative && forall k: nat :: k <= |parts| ==> Balance(parts[k..]) <= 0
  {
    hide SplitAnySeparator, SplitPrefix, Resolved, Balance;
    var parts, p := SplitAnySeparator(SplitPrefix(raw).1), Classify(raw);
    DepthIsLargestBalance(parts);
    var k: nat :| k <= |parts| && Balance(parts[k..]) == |Resolved(parts)|;
    assert p == LexicalPath(SplitPrefix(raw).0, Resolved(parts));
    if IsProtectedRoot(p) {
      forall j: nat | j <= |parts| ensures Balance(parts[j..]) <= 0 {
        assert Balance(parts[j..]) <= |Resolved(parts)|;
      }
    } else if p.prefix != Relative {
      assert Balance(parts[k..]) > 0;
    }
  }

  // ---------------------------------------------------------------------------------------------------------------
  // The printed form
  // ---------------------------------------------------------------------------------------------------------------

  function DisplayString(p: LexicalPath): string {
    match p.prefix
    case Drive(letter) => [letter] + ":\\" + Join(p.components, "\\")
    case Unc(server, share) => "\\\\" + server + "\\" + share + "\\" + Join(p.components, "\\")
    case PosixAbsolute => "/" + Join(p.components, "/")
    case Relative => Join(p.components, "/")
  }

  /** The components of a classified path are names, and have no separators in them. */
  lemma ClassifiedComponents(raw: string)
    ensures var cs := Classify(raw).components;
            forall k :: 0 <= k < |cs| ==> IsName(cs[k]) && NoSeparator(cs[k])
    ensures Classify(raw).prefix.Drive? ==> 'A' <= Classify(raw).prefix.letter <= 'Z'
    ensures Classify(raw).prefix.Unc? ==>
              NoSeparator(Classify(raw).prefix.server) && NoSeparator(Classify(raw).prefix.share)
  {
    var (prefix, remainder) := SplitPrefix(raw);
    ResolvedAreNames(SplitAnySeparator(remainder));
    assert NoSeparator("");
  }

  /** Components that were resolved once are found again after joining and splitting. */
  lemma JoinedComponents(cs: seq<string>, sep: char)
    requires IsSeparator(sep) && forall k :: 0 <= k < |cs| ==> IsName(cs[k]) && NoSeparator(cs[k])
    ensures Resolved(SplitAnySeparator(Join(cs, [sep]))) == cs
    ensures Resolved(SplitAnySeparator([sep] + Join(cs, [sep]))) == cs
  {
    SplitJoin(cs, sep);
    NamesResolveToThemselves(cs);
    assert ([sep] + Join(cs, [sep]))[1..] == Join(cs, [sep]);
    ResolvedAfterEmpty(if |cs| == 0 then [""] else cs);
    assert [""][..0] == [];
  }

  lemma {:induction false} ResolvedAfterEmpty(parts: seq<string>)
    ensures Resolved([""] + parts) == Resolved(parts)
  {
    if |parts| == 0 {
      assert ([""] + parts)[..0] == [];
    } else {
      var n := |parts|;
      ResolvedAfterEmpty(parts[..n - 1]);
      assert ([""] + parts)[..n] == [""] + parts[..n - 1];
    }
  }

  lemma PrintedDrive(letter: char, cs: seq<string>)
    requires 'A' <= letter <= 'Z'
    requires forall k :: 0 <= k < |cs| ==> IsName(cs[k]) && NoSeparator(cs[k])
    ensures Classify(DisplayString(LexicalPath(Drive(letter), cs))) == LexicalPath(Drive(letter), cs)
  {
    var s := DisplayString(LexicalPath(Drive(letter), cs));
    assert s[0] == letter && s[1] == ':' && s[2..] == "\\" + Join(cs, "\\");
    NotVerbatim(s);
    JoinedComponents(cs, '\\');
  }

  lemma PrintedPosix(cs: seq<string>)
    requires forall k :: 0 <= k < |cs| ==> IsName(cs[k]) && NoSeparator(cs[k])
    ensures Classify(DisplayString(LexicalPath(PosixAbsolute, cs))) == LexicalPath(PosixAbsolute, cs)
  {
    var s := DisplayString(LexicalPath(PosixAbsolute, cs));
    JoinStarts(cs, "/");
    assert s[0] == '/' && s == "/" + Join(cs, "/");
    assert |s| > 1 ==> !IsSeparator(s[1]);
    NotVerbatim(s);
    JoinedComponents(cs, '/');
  }

  /** A joined path starts with its first component, which is followed by a separator or the end. */
  lemma JoinStarts(cs: seq<string>, sep: string)
    requires forall k :: 0 <= k < |cs| ==> IsName(cs[k]) && NoSeparator(cs[k])
    ensures |cs| == 0 ==> Join(cs, sep) == ""
    ensures |cs| > 0 ==> |cs[0]| > 0 && |Join(cs, sep)| >= |cs[0]| && Join(cs, sep)[..|cs[0]|] == cs[0]
                         && !IsSeparator(Join(cs, sep)[0])
    ensures |cs| > 0 && |sep| > 0 && |Join(cs, sep)| > |cs[0]| ==> Join(cs, sep)[|cs[0]|] == sep[0]
  {
    if |cs| > 1 {
      assert Join(cs, sep) == cs[0] + (sep + Join(cs[1..], sep));
    }
  }

  /** The verbatim prefix is two equal separators, a question mark and a separator. */
  predicate LooksVerbatim(s: string) {
    |s| >= 4 && IsSeparator(s[0]) && s[1] == s[0] && s[2] == '?' && IsSeparator(s[3])
  }

  lemma NotVerbatim(s: string)
    ensures AfterVerbatim(s) == if LooksVerbatim(s) then Some(s[4..]) else None
  {
  }

  /** `UNC` in any case, and a separator. */
  predicate StartsLikeUnc(rest: string) {
    |rest| >= 4 && rest[0] in "uU" && rest[1] in "nN" && rest[2] in "cC" && IsSeparator(rest[3])
  }

  lemma UncLetters(rest: string)
    ensures AfterUnc(rest) == if StartsLikeUnc(rest) then Some(rest[4..]) else None
  {
    forall a: char
      ensures ToAsciiUppercase(a) == ToAsciiUppercase('U') <==> a in "uU"
      ensures ToAsciiUppercase(a) == ToAsciiUppercase('N') <==> a in "nN"
      ensures ToAsciiUppercase(a) == ToAsciiUppercase('C') <==> a in "cC"
    {
    }
    if |rest| >= 4 {
      assert rest[..4] == [rest[0], rest[1], rest[2], rest[3]];
    }
  }

  /** A share, from the parts of its name and of the path on it. */
  predicate IsShareOf(p: LexicalPath, parts: seq<string>)
    requires |parts| > 0
  {
    && p.prefix == Unc(parts[0], if |parts| > 1 then parts[1] else "")
    && p.components == if |parts| > 2 then Resolved(parts[2..]) else []
  }

  /**
   How a path is read, character by character. After a verbatim prefix, if there is one, a path is a share if it goes on
   with `UNC` there or starts with two separators; a drive if it starts with a letter and a colon; and otherwise
   absolute or relative as it starts with a separator or not.
   */
  lemma ReadsAs(raw: string)
    ensures var p, rest := Classify(raw), if LooksVerbatim(raw) then raw[4..] else raw;
            if LooksVerbatim(raw) && StartsLikeUnc(rest) then
              IsShareOf(p, SplitAnySeparator(rest[4..]))
            else if |rest| >= 2 && IsSeparator(rest[0]) && IsSeparator(rest[1]) then
              IsShareOf(p, SplitAnySeparator(rest[2..]))
            else if |rest| >= 2 && ('a' <= rest[0] <= 'z' || 'A' <= rest[0] <= 'Z') && rest[1] == ':' then
              && p.prefix.Drive? && 'A' <= p.prefix.letter <= 'Z'
              && (p.prefix.letter == rest[0] || p.prefix.letter as int - 'A' as int == rest[0] as int - 'a' as int)
              && p.components == Resolved(SplitAnySeparator(rest[2..]))
            else
              && p.prefix == (if |rest| > 0 && IsSeparator(rest[0]) then PosixAbsolute else Relative)
              && p.components == Resolved(SplitAnySeparator(rest))
  {
    hide AfterVerbatim, AfterUnc, SplitAnySeparator, Resolved;
    NotVerbatim(raw);
    var rest := if LooksVerbatim(raw) then raw[4..] else raw;
    UncLetters(rest);
    NothingSplits();
    if LooksVerbatim(raw) && StartsLikeUnc(rest) {
      AfterSeparatorsSplits(rest[4..], 2);
    } else if |rest| >= 2 {
      AfterSeparatorsSplits(rest[2..], 2);
    }
  }

  lemma UncLooksVerbatim(server: string, rest: string)
    requires NoSeparator(server)
    ensures LooksVerbatim("\\\\" + server + "\\" + rest) <==> server == "?"
  {
    var s := "\\\\" + server + "\\" + rest;
    if |server| > 0 {
      assert s[2] == server[0];
    } else {
      assert s[2] == '\\';
    }
    if |server| > 1 {
      assert s[3] == server[1];
    } else if |server| == 1 {
      assert s[3] == '\\';
    }
  }

  /** A server, a share and what follows them are found again. */
  lemma UncBodyOf(server: string, share: string, tail: string)
    requires NoSeparator(server) && NoSeparator(share)
    ensures var (prefix, remainder) := UncBody(server + "\\" + (share + "\\" + tail));
            prefix == Unc(server, share) && SplitAnySeparator(remainder) == SplitAnySeparator(tail)
  {
    hide SplitAnySeparator, AfterSeparators;
    var rest := share + "\\" + tail;
    SplitPiece(server, rest);
    SplitPiece(share, tail);
    assert IsSeparator('\\');
    assert SplitAnySeparator(server + "\\" + rest)[2..] == SplitAnySeparator(tail);
    AfterSeparatorsSplits(server + "\\" + rest, 2);
  }

  lemma PrintedUnc(server: string, share: string, cs: seq<string>)
    requires NoSeparator(server) && NoSeparator(share) && server != "?"
    requires forall k :: 0 <= k < |cs| ==> IsName(cs[k]) && NoSeparator(cs[k])
    ensures Classify(DisplayString(LexicalPath(Unc(server, share), cs))) == LexicalPath(Unc(server, share), cs)
  {
    hide SplitAnySeparator, Join, Resolved, UncBody, AfterVerbatim;
    var s := DisplayString(LexicalPath(Unc(server, share), cs));
    var rest := share + "\\" + Join(cs, "\\");
    assert s == "\\\\" + server + "\\" + rest && s[2..] == server + "\\" + rest;
    UncLooksVerbatim(server, rest);
    NotVerbatim(s);
    UncBodyOf(server, share, Join(cs, "\\"));
    JoinedComponents(cs, '\\');
  }

  /** What follows `UNC\\` in a verbatim path has two components fewer than the components printed into it. */
  lemma ReadAsVerbatimUnc(share: string, cs: seq<string>)
    requires NoSeparator(share) && AfterUnc(share + "\\" + Join(cs, "\\")).Some?
    requires forall k :: 0 <= k < |cs| ==> IsName(cs[k]) && NoSeparator(cs[k])
    ensures AfterUnc(share + "\\" + Join(cs, "\\")) == Some(Join(cs, "\\"))
  {
    hide AfterUnc, Join;
    var tail := Join(cs, "\\");
    var rest := share + "\\" + tail;
    assert rest[|share|] == '\\' && (|share| > 3 ==> rest[3] == share[3]);
    UncIsThreeLetters(rest);
    assert rest[4..] == tail;
  }

  lemma UncIsThreeLetters(rest: string)
    requires AfterUnc(rest).Some?
    ensures |rest| >= 4 && !IsSeparator(rest[0]) && !IsSeparator(rest[1]) && !IsSeparator(rest[2])
    ensures IsSeparator(rest[3]) && AfterUnc(rest) == Some(rest[4..])
  {
    assert ToAsciiUppercase(rest[..4][0]) == ToAsciiUppercase('U');
    assert ToAsciiUppercase(rest[..4][1]) == ToAsciiUppercase('N');
    assert ToAsciiUppercase(rest[..4][2]) == ToAsciiUppercase('C');
    assert rest[..4][3] == rest[3];
  }

  lemma NothingSplits()
    ensures Resolved(SplitAnySeparator("")) == []
  {
    assert SplitAnySeparator("") == [""] && [""][..0] == [];
  }

  lemma FewerComponents(cs: seq<string>)
    requires forall k :: 0 <= k < |cs| ==> IsName(cs[k]) && NoSeparator(cs[k])
    ensures |cs| == 0 ==> UncBody(Join(cs, "\\")).0 == Unc("", "")
    ensures |cs| > 0 ==> Resolved(SplitAnySeparator(UncBody(Join(cs, "\\")).1)) != cs
  {
    hide Join, AfterSeparators, SplitAnySeparator, Resolved;
    SplitJoin(cs, '\\');
    AfterSeparatorsSplits(Join(cs, "\\"), 2);
    if |cs| > 2 {
      NamesResolveToThemselves(cs[2..]);
    } else {
      NothingSplits();
    }
  }

  /** A share on a server called `?` prints as a verbatim path, and so is read as something else. */
  lemma PrintedQuestionMark(share: string, cs: seq<string>)
    requires NoSeparator(share)
    requires forall k :: 0 <= k < |cs| ==> IsName(cs[k]) && NoSeparator(cs[k])
    ensures Classify(DisplayString(LexicalPath(Unc("?", share), cs))) != LexicalPath(Unc("?", share), cs)
  {
    var s := DisplayString(LexicalPath(Unc("?", share), cs));
    var rest := share + "\\" + Join(cs, "\\");
    assert s == "\\\\?\\" + rest && s[4..] == rest && LooksVerbatim(s);
    NotVerbatim(s);
    if AfterUnc(rest).Some? {
      ReadAsVerbatimUnc(share, cs);
      FewerComponents(cs);
    } else {
      NoDoubleSeparator(share, cs);
    }
  }

  lemma NoDoubleSeparator(share: string, cs: seq<string>)
    requires NoSeparator(share)
    requires forall k :: 0 <= k < |cs| ==> IsName(cs[k]) && NoSeparator(cs[k])
    ensures StripDoubleSeparator(share + "\\" + Join(cs, "\\")).None?
  {
    var tail := Join(cs, "\\");
    var rest := share + "\\" + tail;
    JoinStarts(cs, "\\");
    if |share| > 0 {
      assert rest[0] == share[0];
    } else if |tail| > 0 {
      assert rest[1] == tail[0];
    }
  }

  lemma PrintedRelative(cs: seq<string>)
    requires forall k :: 0 <= k < |cs| ==> IsName(cs[k]) && NoSeparator(cs[k])
    ensures Classify(DisplayString(LexicalPath(Relative, cs))) == LexicalPath(Relative, cs)
            <==> !(|cs| > 0 && DriveLetter(cs[0]).Some?)
  {
    var s := Join(cs, "/");
    JoinStarts(cs, "/");
    NotVerbatim(s);
    JoinedComponents(cs, '/');
    if |cs| > 0 {
      assert s[0] == cs[0][0];
      assert |cs[0]| >= 2 ==> s[1] == cs[0][1];
      assert DriveLetter(s) == DriveLetter(cs[0]);
    }
  }

  /**
   Printing a path and reading it back gives the path, except in exactly two cases: a share on a server called `?`, and
   a relative path whose first component looks like a drive.
   */
  lemma PrintedFormReadsBack(raw: string)
    ensures var p := Classify(raw);
            Classify(DisplayString(p)) == p
            <==> !(p.prefix.Unc? && p.prefix.server == "?")
                 && !(p.prefix.Relative? && |p.components| > 0 && DriveLetter(p.components[0]).Some?)
  {
    var p := Classify(raw);
    ClassifiedComponents(raw);
    match p.prefix
    case Drive(letter) => PrintedDrive(letter, p.components);
    case PosixAbsolute => PrintedPosix(p.components);
    case Relative => PrintedRelative(p.components);
    case Unc(server, share) =>
      if server == "?" {
        PrintedQuestionMark(share, p.components);
      } else {
        PrintedUnc(server, share, p.components);
      }
  }

  /** A relative path whose printed form is a drive path. */
  lemma RelativeReadsBackAsDrive()
    ensures Classify("./C:/y") == LexicalPath(Relative, ["C:", "y"])
    ensures DisplayString(Classify("./C:/y")) == "C:/y" && Classify("C:/y").prefix == Drive('C')
  {
    hide SplitAnySeparator, AfterVerbatim, Resolved;
    var s, cs := "./C:/y", ["C:", "y"];
    NotVerbatim(s);
    assert SplitPrefix(s) == (Relative, s);
    NotVerbatim("C:/y");
    assert SplitPrefix("C:/y").0 == Drive('C');
    assert s == "." + ['/'] + "C:/y" && "C:/y" == "C:" + ['/'] + "y";
    SplitPiece(".", "C:/y");
    SplitPiece("C:", "y");
    SplitPiece("y", "");
    assert SplitAnySeparator(s) == ["."] + cs;
    ResolvedAfterDot(cs);
    NamesResolveToThemselves(cs);
    assert cs[1..] == ["y"];
    assert Join(cs, "/") == "C:" + "/" + Join(["y"], "/");
  }

  lemma {:induction false} ResolvedAfterDot(parts: seq<string>)
    ensures Resolved(["."] + parts) == Resolved(parts)
  {
    if |parts| == 0 {
      assert (["."] + parts)[..0] == [];
    } else {
      var n := |parts|;
      ResolvedAfterDot(parts[..n - 1]);
      assert (["."] + parts)[..n] == ["."] + parts[..n - 1];
    }
  }
}
