/**
 * The clean-up `extractPdfText` (src/lib/resume/parser.ts) applies to the text that
 * `pdf-parse` extracts: every white-space run becomes one space, everything outside
 * printable ASCII (and the newline) is dropped, and the ends are trimmed. The PDF
 * extraction itself is not part of this model.
 */
module ResumeParser {
  import opened Text

  /** No white space other than the plain space, and no two white-space characters in a row. */
  predicate SingleSpaced(s: string) {
    && (forall i :: 0 <= i < |s| && IsSpace(s[i]) ==> s[i] == ' ')
    && (forall i :: 0 <= i < |s| - 1 ==> !(IsSpace(s[i]) && IsSpace(s[i + 1])))
  }

  /** The characters of `s` that are not white space, in order. */
  function NonSpace(s: string): (r: string)
    ensures |r| <= |s|
    ensures forall i :: 0 <= i < |r| ==> !IsSpace(r[i])
  {
    if s == [] then []
    else if IsSpace(s[0]) then NonSpace(s[1..])
    else [s[0]] + NonSpace(s[1..])
  }

  /** `text.replace(/\s+/g, " ")`. */
  function CollapseSpace(s: string): (r: string)
    ensures |r| <= |s|
    ensures s == [] <==> r == []
    ensures s != [] ==> (IsSpace(s[0]) ==> r[0] == ' ') && (!IsSpace(s[0]) ==> r[0] == s[0])
    ensures SingleSpaced(r)
    decreases |s|
  {
    if s == [] then []
    else if IsSpace(s[0]) then
      var k := LeadingSpaces(s);
      var rest := CollapseSpace(s[k..]);
      assert rest != [] ==> !IsSpace(rest[0]);
      [' '] + rest
    else
      var rest := CollapseSpace(s[1..]);
      [s[0]] + rest
  }

  /** A character that `/[^\x20-\x7E\n]/g` leaves in place. */
  predicate Kept(c: char) {
    ' ' <= c <= '~' || c == '\n'
  }

  predicate Printable(c: char) {
    ' ' <= c <= '~'
  }

  /** `text.replace(/[^\x20-\x7E\n]/g, "")`. */
  function FilterAscii(s: string): (r: string)
    ensures |r| <= |s|
    ensures forall i :: 0 <= i < |r| ==> Kept(r[i]) && r[i] in s
  {
    if s == [] then []
    else if Kept(s[0]) then [s[0]] + FilterAscii(s[1..])
    else FilterAscii(s[1..])
  }

  /** The whole clean-up chain of `extractPdfText`, shared by the upload route. */
  function CleanText(s: string): (r: string)
    ensures |r| <= |s|
    ensures forall i :: 0 <= i < |r| ==> Printable(r[i])
    ensures Trimmed(r)
  {
    var c := CollapseSpace(s);
    var f := FilterAscii(c);
    var r := Trim(f);
    var k := LeadingSpaces(f);
    forall i | 0 <= i < |r| ensures Printable(r[i]) {
      assert r[i] == f[k + i];
      var j :| 0 <= j < |c| && c[j] == f[k + i];
      assert c[j] != '\n';
    }
    r
  }

  /** Dropping white space commutes with the collapse: the other characters are kept in order. */
  lemma {:induction false} CollapseKeepsText(s: string)
    ensures NonSpace(CollapseSpace(s)) == NonSpace(s)
    decreases |s|
  {
    if s != [] {
      if IsSpace(s[0]) {
        var k := LeadingSpaces(s);
        CollapseKeepsText(s[k..]);
        LeadingSpacesDropped(s, k);
        assert ([' '] + CollapseSpace(s[k..]))[1..] == CollapseSpace(s[k..]);
      } else {
        CollapseKeepsText(s[1..]);
        assert ([s[0]] + CollapseSpace(s[1..]))[1..] == CollapseSpace(s[1..]);
      }
    }
  }

  lemma {:induction false} LeadingSpacesDropped(s: string, k: nat)
    requires k <= |s| && AllSpace(s[..k])
    ensures NonSpace(s) == NonSpace(s[k..])
  {
    if k > 0 {
      assert IsSpace(s[..k][0]);
      assert s[1..][..k - 1] == s[1..k];
      assert s[1..][k - 1..] == s[k..];
      LeadingSpacesDropped(s[1..], k - 1);
    }
  }

  /** Text that is already single-spaced is left alone by the collapse. */
  lemma {:induction false} CollapseFixpoint(s: string)
    requires SingleSpaced(s)
    ensures CollapseSpace(s) == s
    decreases |s|
  {
    if s != [] {
      if IsSpace(s[0]) {
        assert s[0] == ' ';
        assert |s| > 1 ==> !IsSpace(s[1]);
        assert LeadingSpaces(s) == 1;
        assert SingleSpaced(s[1..]);
        CollapseFixpoint(s[1..]);
        assert s == [s[0]] + s[1..];
      } else {
        assert SingleSpaced(s[1..]);
        CollapseFixpoint(s[1..]);
        assert s == [s[0]] + s[1..];
      }
    }
  }

  /** Text made only of kept characters passes the filter unchanged. */
  lemma {:induction false} FilterFixpoint(s: string)
    requires forall i :: 0 <= i < |s| ==> Kept(s[i])
    ensures FilterAscii(s) == s
  {
    if s != [] {
      FilterFixpoint(s[1..]);
      assert s == [s[0]] + s[1..];
    }
  }

  /**
   * Printable ASCII text with no run of spaces and no space at either end is a fixpoint of
   * the clean-up.
   */
  lemma {:induction false} CleanTextFixpoint(s: string)
    requires forall i :: 0 <= i < |s| ==> Printable(s[i])
    requires forall i :: 0 <= i < |s| - 1 ==> !(s[i] == ' ' && s[i + 1] == ' ')
    requires Trimmed(s)
    ensures CleanText(s) == s
  {
    assert SingleSpaced(s);
    CollapseFixpoint(s);
    FilterFixpoint(s);
    if s != [] {
      TrimPadded([], s, []);
      assert [] + s + [] == s;
    }
  }

  /**
   * Cleaned text is ASCII, so counting and cutting it in UTF-16 code units, as JavaScript's
   * `length` and `slice` do, is counting and cutting it in characters.
   */
  lemma CleanTextCodeUnits(s: string, n: nat)
    ensures InBmp(CleanText(s))
    ensures Utf16Length(CleanText(s)) == |CleanText(s)|
    ensures Utf16Prefix(CleanText(s), n) == Prefix(CleanText(s), n)
  {
    var r := CleanText(s);
    assert InBmp(r);
    Utf16LengthBmp(r);
    Utf16PrefixBmp(r, n);
  }

  /**
   * The clean-up is not idempotent: dropping a non-ASCII letter between two spaces leaves
   * a double space, which a second pass collapses.
   */
  lemma CleanTextNotIdempotent()
    ensures CleanText("a \U{00E9} b") == "a  b"
    ensures CleanText("a  b") == "a b"
  {
    CleanFirstPass();
    CleanSecondPass();
  }

  lemma CleanFirstPass()
    ensures CleanText("a \U{00E9} b") == "a  b"
  {
    calc {
      CleanText("a \U{00E9} b");
      { CleanTextSteps("a \U{00E9} b"); }
      Trim(FilterAscii(CollapseSpace("a \U{00E9} b")));
      { CollapseFirstExample(); }
      Trim(FilterAscii("a \U{00E9} b"));
      { FilterFirstExample(); }
      Trim("a  b");
      { TrimFixpoint("a  b"); }
      "a  b";
    }
  }

  /** The clean-up is the three passes in order. */
  lemma CleanTextSteps(s: string)
    ensures CleanText(s) == Trim(FilterAscii(CollapseSpace(s)))
  {
  }

  lemma CollapseFirstExample()
    ensures CollapseSpace("a \U{00E9} b") == "a \U{00E9} b"
  {
    var s := "a \U{00E9} b";
    assert !IsSpace('\U{00E9}');
    assert SingleSpaced(s);
    CollapseFixpoint(s);
  }

  lemma FilterFirstExample()
    ensures FilterAscii("a \U{00E9} b") == "a  b"
  {
    assert "a \U{00E9} b" == "a " + "\U{00E9}" + " b";
    FilterAppend("a " + "\U{00E9}", " b");
    FilterAppend("a ", "\U{00E9}");
    FilterFixpoint("a ");
    FilterFixpoint(" b");
    assert FilterAscii("\U{00E9}") == [];
    assert "a " + [] + " b" == "a  b";
  }

  lemma CleanSecondPass()
    ensures CleanText("a  b") == "a b"
  {
    calc {
      CleanText("a  b");
      { CleanTextSteps("a  b"); }
      Trim(FilterAscii(CollapseSpace("a  b")));
      { CollapseSecondExample(); }
      Trim(FilterAscii("a b"));
      { FilterFixpoint("a b"); }
      Trim("a b");
      { TrimFixpoint("a b"); }
      "a b";
    }
  }

  lemma CollapseSecondExample()
    ensures CollapseSpace("a  b") == "a b"
  {
    CollapseRun("a", "  ", "b");
    assert "a" + "  " + "b" == "a  b";
    CollapseKeeps('b', []);
    assert ['b'] + [] == "b" && "a" + " " + "b" == "a b";
  }

  /** The filter works character by character. */
  lemma {:induction false} FilterAppend(a: string, b: string)
    ensures FilterAscii(a + b) == FilterAscii(a) + FilterAscii(b)
  {
    if a != [] {
      assert (a + b)[1..] == a[1..] + b;
      FilterAppend(a[1..], b);
    } else {
      assert a + b == b;
    }
  }

  /** A leading white-space run becomes one space. */
  lemma CollapseLeadingRun(run: string, rest: string)
    requires run != [] && AllSpace(run) && (rest == [] || !IsSpace(rest[0]))
    ensures CollapseSpace(run + rest) == " " + CollapseSpace(rest)
  {
    var s := run + rest;
    assert IsSpace(s[0]);
    LeadingSpacesOfPadded(run, rest);
    assert s[|run|..] == rest;
  }

  /** A character other than white space is kept as it is. */
  lemma CollapseKeeps(c: char, t: string)
    requires !IsSpace(c)
    ensures CollapseSpace([c] + t) == [c] + CollapseSpace(t)
  {
    assert ([c] + t)[1..] == t;
  }

  /**
   * A white-space run between a text without white space and a text that does not start
   * with white space becomes one space.
   */
  lemma {:induction false} CollapseRun(w: string, run: string, rest: string)
    requires forall i :: 0 <= i < |w| ==> !IsSpace(w[i])
    requires run != [] && AllSpace(run) && (rest == [] || !IsSpace(rest[0]))
    ensures CollapseSpace(w + run + rest) == w + " " + CollapseSpace(rest)
  {
    if w == [] {
      assert w + run + rest == run + rest && w + " " == " ";
      CollapseLeadingRun(run, rest);
    } else {
      var t := w[1..] + run + rest;
      calc {
        CollapseSpace(w + run + rest);
        { assert w + run + rest == [w[0]] + t; }
        CollapseSpace([w[0]] + t);
        { CollapseKeeps(w[0], t); }
        [w[0]] + CollapseSpace(t);
        { CollapseRun(w[1..], run, rest); }
        [w[0]] + (w[1..] + " " + CollapseSpace(rest));
        { assert w == [w[0]] + w[1..]; }
        w + " " + CollapseSpace(rest);
      }
    }
  }
}
