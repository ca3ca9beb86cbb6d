/** What the comment cut and the whitespace split mean, stated against
    independent characterisations of their results. */
module TextProperties {
  import opened Text

  /** The three facts `CodePart` promises determine its result: any prefix
      with no marker before its end that is the whole line or stops at a
      marker is the code part. */
  lemma CodePartUnique(line: string, r: string)
    requires r <= line
    requires forall i :: 0 <= i < |r| ==> !MarkerAt(line, i)
    requires r == line || MarkerAt(line, |r|)
    ensures r == CodePart(line)
  {
    var c := CodePart(line);
    assert |r| < |c| ==> MarkerAt(line, |r|);
    assert |c| < |r| ==> MarkerAt(line, |c|);
    assert r == line[..|r|] && c == line[..|c|];
  }

  /** A string without a marker is its own code part. */
  lemma CodePartOfPlain(s: string)
    requires NoMarker(s)
    ensures CodePart(s) == s
  {
    CodePartUnique(s, s);
  }

  /** Cutting at the comment twice is the same as cutting once. */
  lemma CodePartIdempotent(line: string)
    ensures CodePart(CodePart(line)) == CodePart(line)
  {
    var c := CodePart(line);
    assert forall i :: 0 <= i < |c| ==> (MarkerAt(c, i) ==> MarkerAt(line, i));
    CodePartOfPlain(c);
  }

  /** A comment appended to code that neither contains a marker nor ends in
      a slash is cut away exactly. */
  lemma CodePartDropsComment(code: string, comment: string)
    requires NoMarker(code)
    requires |code| == 0 || code[|code| - 1] != '/'
    ensures CodePart(code + "//" + comment) == code
  {
    var line := code + "//" + comment;
    assert forall i :: 0 <= i < |code| ==> (MarkerAt(line, i) ==> MarkerAt(code, i) || i == |code| - 1);
    assert MarkerAt(line, |code|);
    CodePartUnique(line, code);
  }

  /** The fields hold exactly the visible characters of the input, in order:
      splitting drops whitespace and nothing else. */
  lemma {:induction false} SplitWsKeepsVisible(s: string)
    ensures Concat(SplitWs(s)) == Visible(s)
    decreases |s|
  {
    if |s| == 0 {
    } else if IsWs(s[0]) {
      SplitWsKeepsVisible(s[1..]);
    } else {
      var n := FieldEnd(s, 0);
      SplitWsKeepsVisible(s[n..]);
      VisibleOfField(s[..n]);
      VisibleAppend(s[..n], s[n..]);
      assert s[..n] + s[n..] == s;
      assert SplitWs(s) == [s[..n]] + SplitWs(s[n..]);
      assert ([s[..n]] + SplitWs(s[n..]))[1..] == SplitWs(s[n..]);
    }
  }

  lemma {:induction false} VisibleOfField(w: string)
    requires forall k :: 0 <= k < |w| ==> !IsWs(w[k])
    ensures Visible(w) == w
    decreases |w|
  {
    if |w| > 0 {
      VisibleOfField(w[1..]);
    }
  }

  lemma {:induction false} VisibleAppend(a: string, b: string)
    ensures Visible(a + b) == Visible(a) + Visible(b)
    decreases |a|
  {
    if |a| == 0 {
      assert a + b == b;
    } else {
      var ab := a + b;
      assert ab[0] == a[0] && ab[1..] == a[1..] + b;
      VisibleAppend(a[1..], b);
      calc {
        Visible(ab);
        (if IsWs(a[0]) then [] else [a[0]]) + Visible(a[1..] + b);
        (if IsWs(a[0]) then [] else [a[0]]) + (Visible(a[1..]) + Visible(b));
      }
    }
  }

  /** A line has no fields exactly when it is all whitespace. */
  lemma {:induction false} SplitWsEmptyIff(s: string)
    ensures SplitWs(s) == [] <==> AllWs(s)
    decreases |s|
  {
    if |s| > 0 && IsWs(s[0]) {
      SplitWsEmptyIff(s[1..]);
      assert AllWs(s) <==> AllWs(s[1..]) by {
        assert forall k :: 1 <= k < |s| ==> s[k] == s[1..][k - 1];
      }
    }
  }

  lemma {:induction false} SplitWsOfField(w: string, rest: string)
    requires IsField(w)
    requires |rest| == 0 || IsWs(rest[0])
    ensures SplitWs(w + rest) == [w] + SplitWs(rest)
  {
    var s := w + rest;
    FieldEndAt(s, 0, |w|);
    assert s[..|w|] == w && s[|w|..] == rest;
  }

  lemma {:induction false} FieldEndAt(s: string, i: nat, j: nat)
    requires i <= j <= |s|
    requires forall k :: i <= k < j ==> !IsWs(s[k])
    requires j == |s| || IsWs(s[j])
    ensures FieldEnd(s, i) == j
    decreases j - i
  {
    if i < j {
      FieldEndAt(s, i + 1, j);
    }
  }

  /** Joining well-formed fields with single spaces and splitting again gives
      the same fields back. */
  lemma {:induction false} SplitJoin(fs: seq<string>)
    requires forall j :: 0 <= j < |fs| ==> IsField(fs[j])
    ensures SplitWs(Join(fs)) == fs
    decreases |fs|
  {
    if |fs| == 1 {
      SplitWsOfField(fs[0], "");
      assert fs[0] + "" == fs[0];
    } else if |fs| > 1 {
      var rest := Join(fs[1..]);
      SplitJoin(fs[1..]);
      SplitWsOfField(fs[0], " " + rest);
      assert fs[0] + " " + rest == fs[0] + (" " + rest);
      assert SplitWs(" " + rest) == SplitWs(rest) by {
        assert (" " + rest)[1..] == rest;
      }
      assert fs == [fs[0]] + fs[1..];
    }
  }

  /** Joining marker-free fields with spaces creates no marker. */
  lemma {:induction false} JoinNoMarker(fs: seq<string>)
    requires forall j :: 0 <= j < |fs| ==> IsField(fs[j]) && NoMarker(fs[j])
    ensures NoMarker(Join(fs))
    decreases |fs|
  {
    if |fs| > 1 {
      var w := fs[0];
      var rest := Join(fs[1..]);
      JoinNoMarker(fs[1..]);
      var s := w + " " + rest;
      forall i | 0 <= i < |s|
        ensures !MarkerAt(s, i)
      {
        if i + 1 < |w| {
          assert !MarkerAt(w, i);
        } else if i > |w| {
          assert MarkerAt(s, i) ==> MarkerAt(rest, i - |w| - 1);
        }
      }
    }
  }

  /** The fields of a line built by joining marker-free fields are those fields. */
  lemma FieldsOfJoin(fs: seq<string>)
    requires forall j :: 0 <= j < |fs| ==> IsField(fs[j]) && NoMarker(fs[j])
    ensures Fields(Join(fs)) == fs
  {
    JoinNoMarker(fs);
    CodePartOfPlain(Join(fs));
    SplitJoin(fs);
  }
}
