/**
 The Windows verbatim form of a path (crates/cursdel-windows/src/sys.rs, `to_verbatim`) and its inverse
 (crates/cursdel-windows/src/lock.rs, `plain_absolute_path`), on strings that are absolute already.
 */
module Verbatim {
  import opened Wrappers
  import opened Target

  function Backslashed(s: string): (r: string)
    ensures |r| == |s|
  {
    seq(|s|, i requires 0 <= i < |s| => if s[i] == '/' then '\\' else s[i])
  }

  function StripPrefix(s: string, prefix: string): Option<string> {
    if prefix <= s then Some(s[|prefix|..]) else None
  }

  /** A path without forward slashes gets the prefix it lacks. */
  function Prefixed(normalized: string): string {
    if "\\\\?\\" <= normalized then normalized
    else if StripPrefix(normalized, "\\\\").Some? then "\\\\?\\UNC\\" + StripPrefix(normalized, "\\\\").value
    else "\\\\?\\" + normalized
  }

  function ToVerbatim(absolute: string): string {
    Prefixed(Backslashed(absolute))
  }

  function Unprefixed(verbatim: string): string {
    if StripPrefix(verbatim, "\\\\?\\UNC\\").Some? then "\\\\" + StripPrefix(verbatim, "\\\\?\\UNC\\").value
    else if StripPrefix(verbatim, "\\\\?\\").Some? then StripPrefix(verbatim, "\\\\?\\").value
    else verbatim
  }

  function PlainAbsolutePath(absolute: string): string {
    Unprefixed(ToVerbatim(absolute))
  }

  /** The verbatim form is marked as such, has no forward slashes, and is its own verbatim form. */
  lemma VerbatimIsIdempotent(p: string)
    ensures "\\\\?\\" <= ToVerbatim(p) && '/' !in ToVerbatim(p)
    ensures ToVerbatim(ToVerbatim(p)) == ToVerbatim(p)
  {
    var v := ToVerbatim(p);
    assert "\\\\?\\UNC\\"[..4] == "\\\\?\\";
    assert Backslashed(v) == v;
  }

  lemma VerbatimUncStarts(n: string)
    ensures "\\\\?\\UNC\\" <= "\\\\?\\" + n <==> "UNC\\" <= n
  {
    var v := "\\\\?\\" + n;
    if |n| >= 4 {
      assert v[..8] == "\\\\?\\" + n[..4] && v[4..8] == n[..4];
      assert "\\\\?\\UNC\\"[..4] == "\\\\?\\" && "\\\\?\\UNC\\"[4..] == "UNC\\";
    }
  }

  lemma ShareComesBack(n: string)
    requires "\\\\" <= n && !("\\\\?\\" <= n)
    ensures Unprefixed(Prefixed(n)) == n && !("UNC\\" <= n)
  {
    var v := "\\\\?\\UNC\\" + n[2..];
    assert Prefixed(n) == v && v[8..] == n[2..];
    assert n == "\\\\" + n[2..] && n[0] == '\\';
  }

  lemma OtherComesBack(n: string)
    requires !("\\\\" <= n)
    ensures Unprefixed(Prefixed(n)) == n <==> !("UNC\\" <= n)
  {
    var v := "\\\\?\\" + n;
    VerbatimUncStarts(n);
    assert "\\\\?\\" <= n ==> "\\\\" <= n;
    assert Prefixed(n) == v && v[4..] == n && "\\\\?\\" <= v;
    if "UNC\\" <= n {
      assert |Unprefixed(v)| == |v| - 6;
    } else {
      assert Unprefixed(v) == v[4..];
    }
  }

  /** The prefix comes off again exactly when it was put on, and the path does not read as a stripped share itself. */
  lemma PlainUndoesVerbatim(p: string)
    ensures PlainAbsolutePath(p) == Backslashed(p)
            <==> !("\\\\?\\" <= Backslashed(p)) && !("UNC\\" <= Backslashed(p))
  {
    hide Backslashed;
    var n := Backslashed(p);
    if "\\\\?\\" <= n {
      assert |Unprefixed(n)| < |n|;
    } else if "\\\\" <= n {
      ShareComesBack(n);
    } else {
      OtherComesBack(n);
    }
  }

  // ---------------------------------------------------------------------------------------------------------------
  // The verbatim form denotes the same path
  // ---------------------------------------------------------------------------------------------------------------

  lemma {:induction false} BackslashedSplits(s: string)
    ensures SplitAnySeparator(Backslashed(s)) == SplitAnySeparator(s)
  {
    if |s| > 0 {
      BackslashedSplits(s[1..]);
      assert Backslashed(s)[1..] == Backslashed(s[1..]);
    }
  }

  lemma {:induction false} BackslashedAfter(s: string, k: nat)
    ensures AfterSeparators(Backslashed(s), k) == Backslashed(AfterSeparators(s, k))
  {
    if k > 0 && |s| > 0 {
      BackslashedAfter(s[1..], if IsSeparator(s[0]) then k - 1 else k);
      assert Backslashed(s)[1..] == Backslashed(s[1..]);
    }
  }

  lemma BackslashedUncBody(body: string)
    ensures UncBody(Backslashed(body)) == (UncBody(body).0, Backslashed(UncBody(body).1))
  {
    BackslashedSplits(body);
    BackslashedAfter(body, 2);
  }

  lemma BackslashedAfterUnc(rest: string)
    ensures AfterUnc(Backslashed(rest))
            == if AfterUnc(rest).Some? then Some(Backslashed(AfterUnc(rest).value)) else None
  {
    if |rest| >= 4 {
      assert Backslashed(rest)[4..] == Backslashed(rest[4..]);
    }
  }

  /** What classification does once a verbatim prefix is out of the way. */
  function SplitPlain(rest: string): (Prefix, string) {
    if StripDoubleSeparator(rest).Some? then UncBody(StripDoubleSeparator(rest).value)
    else if DriveLetter(rest).Some? then (Drive(DriveLetter(rest).value), rest[2..])
    else if |rest| > 0 && IsSeparator(rest[0]) then (PosixAbsolute, rest)
    else (Relative, rest)
  }

  lemma SplitPrefixCases(raw: string)
    ensures SplitPrefix(raw)
            == if !LooksVerbatim(raw) then SplitPlain(raw)
               else if AfterUnc(raw[4..]).Some? then UncBody(AfterUnc(raw[4..]).value)
               else SplitPlain(raw[4..])
  {
    NotVerbatim(raw);
  }

  lemma BackslashedPlain(rest: string)
    ensures SplitPlain(Backslashed(rest)) == (SplitPlain(rest).0, Backslashed(SplitPlain(rest).1))
  {
    if StripDoubleSeparator(rest).Some? {
      BackslashedUncBody(rest[2..]);
      assert Backslashed(rest)[2..] == Backslashed(rest[2..]);
    } else if DriveLetter(rest).Some? {
      assert Backslashed(rest)[2..] == Backslashed(rest[2..]);
    }
  }

  /** Normalising the separators changes nothing, unless it makes a verbatim prefix out of mixed separators. */
  lemma BackslashedClassifies(raw: string)
    requires LooksVerbatim(raw) <==> LooksVerbatim(Backslashed(raw))
    ensures Classify(Backslashed(raw)) == Classify(raw)
  {
    hide SplitPlain, UncBody, AfterUnc;
    SplitPrefixCases(raw);
    SplitPrefixCases(Backslashed(raw));
    if LooksVerbatim(raw) {
      assert Backslashed(raw)[4..] == Backslashed(raw[4..]);
      BackslashedAfterUnc(raw[4..]);
      BackslashedPlain(raw[4..]);
      if AfterUnc(raw[4..]).Some? {
        BackslashedUncBody(AfterUnc(raw[4..]).value);
      }
    } else {
      BackslashedPlain(raw);
    }
    BackslashedSplits(SplitPrefix(raw).1);
  }

  lemma VerbatimLooksVerbatim(n: string)
    requires '/' !in n
    ensures "\\\\?\\" <= n <==> LooksVerbatim(n)
  {
  }

  lemma DriveIsNoUnc(n: string)
    requires DriveLetter(n).Some?
    ensures AfterUnc(n).None? && StripDoubleSeparator(n).None? && SplitPlain(n) == (Drive(DriveLetter(n).value), n[2..])
  {
  }

  lemma VerbatimDrive(n: string)
    requires DriveLetter(n).Some?
    ensures SplitPrefix("\\\\?\\" + n) == SplitPlain(n)
  {
    hide AfterUnc, SplitPlain;
    var v := "\\\\?\\" + n;
    assert v[4..] == n;
    DriveIsNoUnc(n);
    SplitPrefixCases(v);
  }

  lemma VerbatimShare(body: string)
    ensures SplitPrefix("\\\\?\\UNC\\" + body) == UncBody(body)
  {
    hide UncBody;
    var v := "\\\\?\\UNC\\" + body;
    assert v[4..] == "UNC\\" + body;
    assert AfterUnc(v[4..]) == Some(body) by {
      assert v[4..][..4] == "UNC\\" && v[4..][4..] == body;
    }
    SplitPrefixCases(v);
  }

  /** Without a question mark behind mixed separators, a drive or share path and its verbatim form are read alike. */
  lemma UnmixedMeansTheSame(p: string)
    requires Classify(p).prefix.Drive? || Classify(p).prefix.Unc?
    requires LooksVerbatim(p) <==> LooksVerbatim(Backslashed(p))
    ensures Classify(ToVerbatim(p)) == Classify(p)
  {
    hide UncBody, AfterUnc, Backslashed, SplitPrefix;
    var n := Backslashed(p);
    assert '/' !in n by {
      NoSlashes(p);
    }
    VerbatimLooksVerbatim(n);
    BackslashedClassifies(p);
    SplitPrefixCases(n);
    if !LooksVerbatim(n) {
      if "\\\\" <= n {
        VerbatimShare(n[2..]);
      } else {
        assert StripDoubleSeparator(n).None?;
        VerbatimDrive(n);
      }
    }
  }

  lemma NoSlashes(p: string)
    ensures '/' !in Backslashed(p)
  {
  }

  // ---------------------------------------------------------------------------------------------------------------
  // Mixed separators
  // ---------------------------------------------------------------------------------------------------------------

  /** Two different separators, `?`, and a separator: a verbatim prefix once the separators are normalised. */
  predicate Mixed(p: string) {
    |p| >= 4 && IsSeparator(p[0]) && IsSeparator(p[1]) && p[0] != p[1] && p[2] == '?' && IsSeparator(p[3])
  }

  lemma MixedTurnsVerbatim(p: string)
    ensures LooksVerbatim(Backslashed(p)) <==> LooksVerbatim(p) || Mixed(p)
    ensures !(LooksVerbatim(p) && Mixed(p))
  {
  }

  /** A string is its first piece, or its first piece, a separator and what splits into the other pieces. */
  lemma {:induction false} FirstPiece(r: string)
    ensures var s := SplitAnySeparator(r);
            if |s| == 1 then r == s[0]
            else |s[0]| < |r| && s[0] == r[..|s[0]|] && IsSeparator(r[|s[0]|])
                 && SplitAnySeparator(r[|s[0]| + 1..]) == s[1..]
  {
    if |r| > 0 {
      if !IsSeparator(r[0]) {
        FirstPiece(r[1..]);
        var n := |SplitAnySeparator(r[1..])[0]|;
        assert r == [r[0]] + r[1..];
        if |SplitAnySeparator(r)| > 1 {
          assert r[..n + 1] == [r[0]] + r[1..][..n] && r[1..][n + 1..] == r[n + 2..];
        }
      }
    }
  }

  lemma UncBodyComponents(body: string)
    ensures var s := SplitAnySeparator(body);
            && UncBody(body).0 == Unc(s[0], if |s| > 1 then s[1] else "")
            && Resolved(SplitAnySeparator(UncBody(body).1)) == Resolved(if |s| > 2 then s[2..] else [])
  {
    AfterSeparatorsSplits(body, 2);
    assert SplitAnySeparator("") == [""] && [""][..0] == [];
  }

  /** A mixed path is read as a share on a server called `?`. */
  lemma MixedBefore(p: string)
    requires Mixed(p)
    ensures var s := SplitAnySeparator(p[4..]);
            Classify(p) == LexicalPath(Unc("?", s[0]), Resolved(s[1..]))
  {
    hide UncBody, AfterUnc, SplitAnySeparator;
    var s := SplitAnySeparator(p[4..]);
    SplitPrefixCases(p);
    assert p[2..] == "?" + [p[3]] + p[4..];
    SplitPiece("?", p[4..]);
    assert SplitAnySeparator(p[2..]) == ["?"] + s;
    UncBodyComponents(p[2..]);
    assert |s| > 1 ==> (["?"] + s)[2..] == s[1..];
  }

  /** What follows a verbatim prefix is read as a share if it starts with `UNC` or with two separators. */
  lemma ReadAfterPrefix(r: string)
    ensures var s := SplitAnySeparator(r);
            && (AfterUnc(r).Some? <==> |s| >= 2 && EqualIgnoringCase(s[0], "UNC"))
            && (AfterUnc(r).Some? ==> SplitAnySeparator(AfterUnc(r).value) == s[1..])
            && (StripDoubleSeparator(r).Some? <==> |s| >= 3 && s[0] == "" && s[1] == "")
            && (StripDoubleSeparator(r).Some? ==> SplitAnySeparator(StripDoubleSeparator(r).value) == s[2..])
  {
    FirstPiece(r);
    var s := SplitAnySeparator(r);
    StartsWithUnc(r, s);
    if |s| > 1 {
      FirstPiece(r[|s[0]| + 1..]);
      assert s[0] == "" ==> |s[0]| == 0;
    }
    DoubleSeparator(r, s);
  }

  /** `UNC` in any case, and a separator. */
  lemma UncCharacters(r: string)
    ensures AfterUnc(r)
            == if |r| >= 4 && EqualIgnoringCase(r[..3], "UNC") && IsSeparator(r[3]) then Some(r[4..]) else None
  {
    if |r| >= 4 {
      assert r[..4] == r[..3] + [r[3]];
      assert "UNC\\" == "UNC" + ['\\'] && "UNC/" == "UNC" + ['/'];
    }
  }

  lemma StartsWithUnc(r: string, s: seq<string>)
    requires s == SplitAnySeparator(r)
    requires if |s| == 1 then r == s[0]
             else |s[0]| < |r| && s[0] == r[..|s[0]|] && IsSeparator(r[|s[0]|])
                  && SplitAnySeparator(r[|s[0]| + 1..]) == s[1..]
    ensures AfterUnc(r).Some? <==> |s| >= 2 && EqualIgnoringCase(s[0], "UNC")
    ensures AfterUnc(r).Some? ==> SplitAnySeparator(AfterUnc(r).value) == s[1..]
  {
    hide AfterUnc, SplitAnySeparator;
    assert NoSeparator(s[0]);
    assert forall k :: 0 <= k < |s[0]| ==> r[k] == s[0][k] && !IsSeparator(r[k]);
    UncCharacters(r);
    if AfterUnc(r).Some? {
      UncIsThreeLetters(r);
    }
  }

  lemma DoubleSeparator(r: string, s: seq<string>)
    requires s == SplitAnySeparator(r)
    ensures StripDoubleSeparator(r).Some? <==> |s| >= 3 && s[0] == "" && s[1] == ""
    ensures StripDoubleSeparator(r).Some? ==> SplitAnySeparator(StripDoubleSeparator(r).value) == s[2..]
  {
  }

  /** In the verbatim form, `UNC` and then the name `?` and the same share name again, all of it taken back later. */
  predicate ComesBackAsUnc(s: seq<string>) {
    |s| >= 3 && EqualIgnoringCase(s[0], "UNC") && s[1] == "?" && s[2] == s[0] && Falls(s[3..], 2)
  }

  /** Two separators and then a share on a server called `?`, with the name taken back later. */
  predicate ComesBackAsShare(s: seq<string>) {
    |s| >= 4 && s[0] == "" && s[1] == "" && s[2] == "?" && s[3] == "" && Falls(s[4..], 1)
  }

  /** How the verbatim form of a mixed path is read. */
  lemma MixedAfter(p: string)
    requires Mixed(p)
    ensures var s, read := SplitAnySeparator(p[4..]), Classify(ToVerbatim(p));
            if |s| >= 2 && EqualIgnoringCase(s[0], "UNC") then
              read == LexicalPath(Unc(s[1], if |s| > 2 then s[2] else ""), Resolved(if |s| > 3 then s[3..] else []))
            else if |s| >= 3 && s[0] == "" && s[1] == "" then
              read == LexicalPath(Unc(s[2], if |s| > 3 then s[3] else ""), Resolved(if |s| > 4 then s[4..] else []))
            else !read.prefix.Unc?
  {
    hide UncBody, AfterUnc, SplitAnySeparator;
    var s, v, r := SplitAnySeparator(p[4..]), Backslashed(p), Backslashed(p[4..]);
    MixedTurnsVerbatim(p);
    NoSlashes(p);
    VerbatimLooksVerbatim(v);
    assert ToVerbatim(p) == v && v[4..] == r;
    BackslashedSplits(p[4..]);
    SplitPrefixCases(v);
    ReadAfterPrefix(r);
    if AfterUnc(r).Some? {
      UncBodyComponents(AfterUnc(r).value);
      assert |s| > 3 ==> s[1..][2..] == s[3..];
    } else if StripDoubleSeparator(r).Some? {
      UncBodyComponents(StripDoubleSeparator(r).value);
      assert |s| > 4 ==> s[2..][2..] == s[4..];
    }
  }

  lemma UncComesBack(s: seq<string>)
    requires |s| >= 2 && EqualIgnoringCase(s[0], "UNC")
    ensures LexicalPath(Unc(s[1], if |s| > 2 then s[2] else ""), Resolved(if |s| > 3 then s[3..] else []))
            == LexicalPath(Unc("?", s[0]), Resolved(s[1..]))
            <==> ComesBackAsUnc(s)
  {
    hide Resolved;
    if |s| >= 3 && s[1] == "?" && s[2] == s[0] {
      NamesVanish(["?", s[0]], s[3..]);
      assert s[1..] == ["?", s[0]] + s[3..];
      assert |s| == 3 ==> s[3..] == [];
    }
  }

  lemma ShareComesBackMixed(s: seq<string>)
    requires |s| >= 3 && s[0] == "" && s[1] == ""
    ensures LexicalPath(Unc(s[2], if |s| > 3 then s[3] else ""), Resolved(if |s| > 4 then s[4..] else []))
            == LexicalPath(Unc("?", s[0]), Resolved(s[1..]))
            <==> ComesBackAsShare(s)
  {
    hide Resolved;
    ResolvedAfterEmpty(s[2..]);
    assert s[1..] == [""] + s[2..];
    if s[2] == "?" {
      if |s| == 3 {
        NamesResolveToThemselves(["?"]);
        NothingResolved();
        assert s[2..] == ["?"];
      } else if s[3] == "" {
        EmptyFalls(s[4..]);
        ResolvedAfterEmpty(s[4..]);
        NamesVanish(["?"], [""] + s[4..]);
        assert s[2..] == ["?"] + ([""] + s[4..]);
        assert |s| == 4 ==> s[4..] == [];
      }
    }
  }

  lemma NothingResolved()
    ensures Resolved([]) == []
  {
  }

  /** An empty part in front changes nothing about where a path rises to. */
  lemma EmptyFalls(parts: seq<string>)
    ensures Falls([""] + parts, 1) <==> Falls(parts, 1)
  {
    var more := [""] + parts;
    forall m: nat | m <= |parts| ensures Balance(more[..m + 1]) == Balance(parts[..m]) {
      BalanceSplits(more, 0, 1, m + 1);
      assert more[0..1] == [""] && [""][..0] == [] && more[1..m + 1] == parts[..m];
      assert more[0..m + 1] == more[..m + 1];
    }
    assert more[..0] == [];
    if m: nat :| m <= |parts| && Balance(parts[..m]) <= 0 - 1 {
      assert Balance(more[..m + 1]) <= 0 - 1;
    }
    if m: nat :| m <= |more| && Balance(more[..m]) <= 0 - 1 {
      assert Balance(parts[..m - 1]) <= 0 - 1;
    }
  }

  /**
   A drive or share path and its verbatim form are read alike, with one exception: normalising mixed separators can make
   a verbatim prefix. Then they are read alike exactly when the parts behind it happen to spell the same share again and
   later rise above the names that only the first reading counts.
   */
  lemma VerbatimMeansTheSame(p: string)
    requires Classify(p).prefix.Drive? || Classify(p).prefix.Unc?
    ensures Classify(ToVerbatim(p)) == Classify(p)
            <==> (Mixed(p) ==>
                    ComesBackAsUnc(SplitAnySeparator(p[4..])) || ComesBackAsShare(SplitAnySeparator(p[4..])))
  {
    hide Classify, ToVerbatim, Backslashed;
    MixedTurnsVerbatim(p);
    if Mixed(p) {
      var s := SplitAnySeparator(p[4..]);
      MixedBefore(p);
      MixedAfter(p);
      if |s| >= 2 && EqualIgnoringCase(s[0], "UNC") {
        UncComesBack(s);
      } else if |s| >= 3 && s[0] == "" && s[1] == "" {
        ShareComesBackMixed(s);
      }
    } else {
      UnmixedMeansTheSame(p);
    }
  }

  lemma QuestionMarkShare()
    ensures SplitPrefix("\\/?\\C:\\x").0 == Unc("?", "C:")
  {
    hide AfterSeparators, AfterUnc, SplitAnySeparator;
    var p := "\\/?\\C:\\x";
    SplitPrefixCases(p);
    assert p[2..] == "?" + ['\\'] + "C:\\x";
    SplitPiece("?", "C:\\x");
    assert "C:\\x" == "C:" + ['\\'] + "x";
    SplitPiece("C:", "x");
  }

  /** Mixed separators in front of a question mark are a share before normalisation and a verbatim drive after it. */
  lemma MixedSeparatorsChangeMeaning()
    ensures var p := "\\/?\\C:\\x";
            Classify(p).prefix == Unc("?", "C:") && Classify(ToVerbatim(p)).prefix == Drive('C')
  {
    hide SplitPrefix, Resolved, SplitAnySeparator;
    QuestionMarkShare();
    assert ToVerbatim("\\/?\\C:\\x") == "\\\\?\\" + "C:\\x" by {
      assert Backslashed("\\/?\\C:\\x") == "\\\\?\\" + "C:\\x";
    }
    VerbatimDrive("C:\\x");
  }
}
