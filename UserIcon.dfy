/**
 * The avatar letters: the upper-cased first character of each space-separated part of the full
 * name. An empty part has no first character, which the component does not handle; the model
 * makes "no empty part" a precondition and characterises it.
 */
module UserIcon {
  import opened Strings

  /** Every part of `fullname.split(" ")` has a first character. */
  predicate NoEmptyPart(fullname: string) {
    "" !in Split(fullname, ' ')
  }

  /** One letter per part, in part order. */
  function Initials(fullname: string): (letters: string)
    requires NoEmptyPart(fullname)
    ensures |letters| == Count(fullname, ' ') + 1
    ensures letters == ScanInitials(fullname, true)
  {
    var parts := Split(fullname, ' ');
    SplitCount(fullname, ' ');
    var letters := seq(|parts|, k requires 0 <= k < |parts| => ToUpper(parts[k][0]));
    FirstsOfNonEmptyParts(parts);
    assert letters == Firsts(parts);
    ScanMatchesSplit(fullname);
    letters
  }

  // ---------------------------------------------------------------- a reference definition

  /**
   * The letters read off the name in one pass: every character that starts the name or
   * follows a space, upper-cased; `atStart` says whether the previous character was a space.
   */
  function ScanInitials(s: string, atStart: bool): string
    decreases |s|
  {
    if s == [] then []
    else if s[0] == ' ' then ScanInitials(s[1..], true)
    else (if atStart then [ToUpper(s[0])] else []) + ScanInitials(s[1..], false)
  }

  /** The upper-cased first characters of the non-empty parts. */
  function Firsts(parts: seq<string>): string
    decreases |parts|
  {
    if parts == [] then []
    else (if parts[0] == [] then [] else [ToUpper(parts[0][0])]) + Firsts(parts[1..])
  }

  lemma {:induction false} FirstsOfNonEmptyParts(parts: seq<string>)
    requires "" !in parts
    ensures |Firsts(parts)| == |parts|
    ensures forall k :: 0 <= k < |parts| ==> Firsts(parts)[k] == ToUpper(parts[k][0])
    decreases |parts|
  {
    if parts != [] {
      assert "" !in parts[1..] by {
        forall k | 0 <= k < |parts[1..]| ensures parts[1..][k] != "" {
          assert parts[1..][k] == parts[k + 1];
        }
      }
      FirstsOfNonEmptyParts(parts[1..]);
      assert parts[0] in parts;
    }
  }

  /** Reading the name in one pass gives the first letters of the parts `split` produces. */
  lemma {:induction false} ScanMatchesSplit(s: string)
    ensures ScanInitials(s, true) == Firsts(Split(s, ' '))
    ensures ScanInitials(s, false) == Firsts(Split(s, ' ')[1..])
    decreases |s|
  {
    if s != [] {
      ScanMatchesSplit(s[1..]);
      var rest := Split(s[1..], ' ');
      if s[0] == ' ' {
        assert Split(s, ' ') == [""] + rest;
        assert Split(s, ' ')[1..] == rest;
      } else {
        var parts := Split(s, ' ');
        assert parts == [[s[0]] + rest[0]] + rest[1..];
        assert parts[1..] == rest[1..];
        assert Firsts(parts) == [ToUpper(s[0])] + Firsts(rest[1..]);
      }
    }
  }

  // ---------------------------------------------------------------- the precondition

  /** A name with no empty part: non-empty, not starting or ending with a space, and with no two spaces in a row. */
  predicate WellSpaced(s: string) {
    s != [] && s[0] != ' ' && s[|s| - 1] != ' ' &&
    forall i :: 0 <= i < |s| - 1 ==> !(s[i] == ' ' && s[i + 1] == ' ')
  }

  lemma {:induction false} FirstPartEmpty(s: string)
    ensures Split(s, ' ')[0] == "" <==> s == [] || s[0] == ' '
  {
  }

  lemma {:induction false} NoEmptyPartIff(s: string)
    ensures NoEmptyPart(s) <==> WellSpaced(s)
    decreases |s|
  {
    if s == [] {
      assert Split(s, ' ') == [""];
    } else if s[0] == ' ' {
      assert Split(s, ' ')[0] == "";
    } else {
      var t := s[1..];
      var rest := Split(t, ' ');
      var parts := Split(s, ' ');
      assert parts == [[s[0]] + rest[0]] + rest[1..];
      assert NoEmptyPart(s) <==> "" !in rest[1..] by {
        assert parts[0] != "";
        assert parts[1..] == rest[1..];
        assert parts == [parts[0]] + parts[1..];
      }
      if t == [] {
        assert rest == [""];
      } else if t[0] == ' ' {
        NoEmptyPartIff(t[1..]);
        assert rest == [""] + Split(t[1..], ' ');
        assert rest[1..] == Split(t[1..], ' ');
        WellSpacedAfterSpace(s);
      } else {
        NoEmptyPartIff(t);
        FirstPartEmpty(t);
        assert rest == [rest[0]] + rest[1..];
        WellSpacedStep(s);
      }
    }
  }

  lemma WellSpacedAfterSpace(s: string)
    requires |s| >= 2 && s[0] != ' ' && s[1] == ' '
    ensures WellSpaced(s) <==> WellSpaced(s[2..])
  {
    if WellSpaced(s[2..]) {
      forall i | 0 <= i < |s| - 1 ensures !(s[i] == ' ' && s[i + 1] == ' ') {
        if i >= 2 {
          assert s[i] == s[2..][i - 2] && s[i + 1] == s[2..][i - 1];
        }
      }
    }
    if WellSpaced(s) {
      assert s[2..] != [] by {
        assert s[|s| - 1] != ' ';
      }
      forall i | 0 <= i < |s[2..]| - 1 ensures !(s[2..][i] == ' ' && s[2..][i + 1] == ' ') {
        assert s[2..][i] == s[i + 2] && s[2..][i + 1] == s[i + 3];
      }
      assert s[2..][0] == s[2] && !(s[1] == ' ' && s[2] == ' ');
    }
  }

  lemma WellSpacedStep(s: string)
    requires |s| >= 2 && s[0] != ' ' && s[1] != ' '
    ensures WellSpaced(s) <==> WellSpaced(s[1..])
  {
    if WellSpaced(s[1..]) {
      forall i | 0 <= i < |s| - 1 ensures !(s[i] == ' ' && s[i + 1] == ' ') {
        if i >= 1 {
          assert s[i] == s[1..][i - 1] && s[i + 1] == s[1..][i];
        }
      }
    }
    if WellSpaced(s) {
      forall i | 0 <= i < |s[1..]| - 1 ensures !(s[1..][i] == ' ' && s[1..][i + 1] == ' ') {
        assert s[1..][i] == s[i + 1] && s[1..][i + 1] == s[i + 2];
      }
    }
  }

  /** Letter `k` is the upper-cased character that opens the `k`-th part. */
  lemma InitialsAreFirstLetters(fullname: string, k: int)
    requires NoEmptyPart(fullname) && 0 <= k < |Split(fullname, ' ')|
    ensures Initials(fullname)[k] == ToUpper(Split(fullname, ' ')[k][0])
  {
    var parts := Split(fullname, ' ');
    FirstsOfNonEmptyParts(parts);
    ScanMatchesSplit(fullname);
  }
}
