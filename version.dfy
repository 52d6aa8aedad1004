/**
 * The check tarc/main.py applies to the version string a qBittorrent daemon
 * reports: `re.match(r"^v?\d+(\.\d+)*$", version)`. `\d` is taken to be an
 * ASCII digit.
 */
module Version {

  predicate IsDigit(c: char)
  {
    '0' <= c <= '9'
  }

  /**
   * `s` is `\d+(\.\d+)*` in full: digit groups separated by single dots. Such
   * a string starts and ends with a digit and holds nothing but digits and
   * dots.
   */
  predicate DigitGroups(s: string): (b: bool)
    ensures b ==> |s| > 0 && IsDigit(s[0]) && IsDigit(s[|s| - 1])
    ensures b ==> forall i :: 0 <= i < |s| ==> IsDigit(s[i]) || s[i] == '.'
    decreases |s|
  {
    |s| > 0 && IsDigit(s[0]) &&
    (|s| == 1
     || (IsDigit(s[1]) && DigitGroups(s[1..]))
     || (s[1] == '.' && DigitGroups(s[2..])))
  }

  /**
   * The version string matches the pattern. `^` anchors at the start; an
   * optional leading `v` is skipped; Python's `$` matches at the end of the
   * string and also just before a newline that ends it.
   */
  predicate Accepted(version: string): (b: bool)
    ensures b ==> |version| > 0 && (IsDigit(version[0]) || version[0] == 'v')
    ensures b ==> IsDigit(version[|version| - 1]) || version[|version| - 1] == '\n'
  {
    var body := if |version| > 0 && version[0] == 'v' then version[1..] else version;
    DigitGroups(body) || (|body| > 0 && body[|body| - 1] == '\n' && DigitGroups(body[..|body| - 1]))
  }

  /**
   * An independent description of digit groups: non-empty, made of digits
   * and dots only, starting and ending with a digit, and never two dots in a
   * row.
   */
  predicate WellDotted(s: string)
  {
    && |s| > 0
    && IsDigit(s[0])
    && IsDigit(s[|s| - 1])
    && (forall i :: 0 <= i < |s| ==> IsDigit(s[i]) || s[i] == '.')
    && (forall i :: 0 <= i < |s| - 1 && s[i] == '.' ==> s[i + 1] != '.')
  }

  /** A leading digit followed by a digit adds nothing to the shape. */
  lemma WellDottedAfterDigit(s: string)
    requires |s| >= 2 && IsDigit(s[0]) && IsDigit(s[1])
    ensures WellDotted(s) <==> WellDotted(s[1..])
  {
    var t := s[1..];
    assert forall i :: 0 <= i < |t| ==> t[i] == s[i + 1];
    if WellDotted(t) {
      forall i | 0 <= i < |s| ensures IsDigit(s[i]) || s[i] == '.' {
        if i > 0 { assert s[i] == t[i - 1]; }
      }
      forall i | 0 <= i < |s| - 1 && s[i] == '.' ensures s[i + 1] != '.' {
        assert i > 0;
        assert s[i] == t[i - 1] && s[i + 1] == t[i];
      }
    }
  }

  /** A leading digit followed by a dot requires a well-dotted rest after the dot. */
  lemma WellDottedAfterDot(s: string)
    requires |s| >= 2 && IsDigit(s[0]) && s[1] == '.'
    ensures WellDotted(s) <==> WellDotted(s[2..])
  {
    var t := s[2..];
    assert forall i :: 0 <= i < |t| ==> t[i] == s[i + 2];
    if WellDotted(s) {
      assert |s| > 2;
      assert s[2] != '.';
      assert IsDigit(t[0]);
      forall i | 0 <= i < |t| - 1 && t[i] == '.' ensures t[i + 1] != '.' {
        assert s[i + 2] == '.';
      }
    }
    if WellDotted(t) {
      forall i | 0 <= i < |s| ensures IsDigit(s[i]) || s[i] == '.' {
        if i > 1 { assert s[i] == t[i - 2]; }
      }
      forall i | 0 <= i < |s| - 1 && s[i] == '.' ensures s[i + 1] != '.' {
        if i == 1 { assert s[2] == t[0]; }
        else { assert i > 1 && s[i] == t[i - 2] && s[i + 1] == t[i - 1]; }
      }
    }
  }

  /** The recogniser accepts exactly the well-dotted strings. */
  lemma {:induction false} DigitGroupsIff(s: string)
    ensures DigitGroups(s) <==> WellDotted(s)
    decreases |s|
  {
    if |s| >= 2 && IsDigit(s[0]) {
      if IsDigit(s[1]) {
        DigitGroupsIff(s[1..]);
        WellDottedAfterDigit(s);
      } else if s[1] == '.' {
        DigitGroupsIff(s[2..]);
        WellDottedAfterDot(s);
      } else {
        assert !WellDotted(s);
      }
    }
  }

  /** Whole-string acceptance in terms of the independent description. */
  lemma AcceptedIff(version: string)
    ensures Accepted(version) <==>
      var body := if |version| > 0 && version[0] == 'v' then version[1..] else version;
      WellDotted(body) || (|body| > 0 && body[|body| - 1] == '\n' && WellDotted(body[..|body| - 1]))
  {
    var body := if |version| > 0 && version[0] == 'v' then version[1..] else version;
    DigitGroupsIff(body);
    if |body| > 0 {
      DigitGroupsIff(body[..|body| - 1]);
    }
  }

  /** The strings the pattern is meant to admit and to refuse. */
  lemma Examples()
    ensures Accepted("1.2.3") && Accepted("v1.2.3") && Accepted("4.6.7\n") && Accepted("10")
    ensures !Accepted("") && !Accepted("v") && !Accepted("1.") && !Accepted("1..2")
    ensures !Accepted("qbt-1.2") && !Accepted(".1") && !Accepted("vv1")
  {
    assert DigitGroups("3") && DigitGroups("2.3") && DigitGroups("1.2.3");
    assert DigitGroups("7") && DigitGroups("6.7") && DigitGroups("4.6.7");
    assert "4.6.7\n"[..5] == "4.6.7";
    assert DigitGroups("0") && DigitGroups("10");
    assert !DigitGroups("");
    assert !DigitGroups("1.");
    assert !DigitGroups(".2") && !DigitGroups("1..2");
    assert !DigitGroups("qbt-1.2");
    assert !DigitGroups(".1") && !DigitGroups("v1");
  }
}
