/** The titles a run publishes under: parsing the multiple-title text box
    into a list and choosing the title for each channel, cycling through the
    list when it is shorter than the channel list. */
module Titles {
  import opened Text

  /** Which title input the form uses. */
  datatype TitleMode = Single | Multiple

  /** `lines.filter((t) => t.trim())`: the lines that are not blank, in
      their original order and unchanged. */
  function KeepNonBlank(lines: seq<string>): (r: seq<string>)
    ensures |r| <= |lines|
    ensures forall k :: 0 <= k < |r| ==> !AllSpace(r[k])
    ensures forall t :: t in r <==> t in lines && !AllSpace(t)
  {
    if lines == [] then []
    else (if IsBlank(lines[0]) then [] else [lines[0]]) + KeepNonBlank(lines[1..])
  }

  /** Filtering distributes over concatenation; together with its effect on a
      single line this pins down the order of the kept lines. */
  lemma {:induction false} KeepNonBlankAppend(a: seq<string>, b: seq<string>)
    ensures KeepNonBlank(a + b) == KeepNonBlank(a) + KeepNonBlank(b)
  {
    if a != [] {
      var head := if IsBlank(a[0]) then [] else [a[0]];
      assert (a + b)[0] == a[0] && (a + b)[1..] == a[1..] + b;
      assert KeepNonBlank(a + b) == head + KeepNonBlank(a[1..] + b);
      KeepNonBlankAppend(a[1..], b);
      assert KeepNonBlank(a) == head + KeepNonBlank(a[1..]);
    } else {
      assert a + b == b;
    }
  }

  /** A list with no blank line passes through the filter unchanged, so the
      filter is idempotent. */
  lemma {:induction false} KeepNonBlankIdentity(lines: seq<string>)
    requires forall k :: 0 <= k < |lines| ==> !AllSpace(lines[k])
    ensures KeepNonBlank(lines) == lines
  {
    if lines != [] {
      KeepNonBlankIdentity(lines[1..]);
      assert [lines[0]] + lines[1..] == lines;
    }
  }

  /** The multiple-title text box read as a list: the text is trimmed, split
      on line feeds, and blank lines are dropped. The kept lines are not
      trimmed themselves. */
  function ParseTitles(text: string): (r: seq<string>)
    ensures forall k :: 0 <= k < |r| ==> !AllSpace(r[k]) && '\n' !in r[k]
    ensures forall t :: t in r <==> t in Split(Trim(text), '\n') && !AllSpace(t)
  {
    KeepNonBlank(Split(Trim(text), '\n'))
  }

  /** The first piece of a split starts with the first character of the
      input when that character is not the separator. */
  lemma SplitHead(s: string, sep: char)
    requires s != [] && s[0] != sep
    ensures Split(s, sep)[0] != [] && Split(s, sep)[0][0] == s[0]
  {
  }

  /** The parsed list is empty exactly when the text box holds nothing but
      whitespace. */
  lemma {:induction false} ParseTitlesEmptyIff(text: string)
    ensures ParseTitles(text) == [] <==> AllSpace(text)
  {
    var body := Trim(text);
    var lines := Split(body, '\n');
    if AllSpace(text) {
      assert body == [];
      assert lines == [[]];
      assert IsBlank(lines[0]);
    } else {
      assert body != [] && !IsSpace(body[0]);
      SplitHead(body, '\n');
      assert !AllSpace(lines[0]);
      assert lines[0] in ParseTitles(text);
    }
  }

  /** Lines keep their inner spacing: only the text as a whole is trimmed. */
  lemma ParseTitlesKeepsInnerSpaces()
    ensures ParseTitles(" A \n\n B ") == ["A ", " B"]
  {
    TrimExample();
    SplitExample();
    KeepExample();
  }

  lemma SplitExample()
    ensures Split("A \n\n B", '\n') == ["A ", "", " B"]
  {
    SplitNoSep(" B", '\n');
    SplitFirstPiece("", " B", '\n');
    assert "" + ['\n'] + " B" == "\n B";
    SplitFirstPiece("", "\n B", '\n');
    assert "" + ['\n'] + "\n B" == "\n\n B";
    SplitFirstPiece("A ", "\n B", '\n');
    assert "A " + ['\n'] + "\n B" == "A \n\n B";
  }

  lemma KeepExample()
    ensures KeepNonBlank(["A ", "", " B"]) == ["A ", " B"]
  {
    var lines := ["A ", "", " B"];
    assert !IsSpace('A') && !IsSpace('B');
    assert !AllSpace("A ") && AllSpace("") && !AllSpace(" B") by {
      assert "A "[0] == 'A';
      assert " B"[1] == 'B';
    }
    assert KeepNonBlank(lines[2..]) == [" B"] by {
      assert lines[2..][1..] == [];
    }
    assert KeepNonBlank(lines[1..]) == [" B"] by {
      assert lines[1..][1..] == lines[2..];
    }
    assert lines[1..] == ["", " B"];
  }

  /** Trimming removes the outer spaces only. */
  lemma TrimExample()
    ensures Trim(" A \n\n B ") == "A \n\n B"
  {
    var s := " A \n\n B ";
    assert LeadingSpaces(s[1..]) == 0;
    assert LeadingSpaces(s) == 1;
    var t := s[1..];
    assert t == "A \n\n B ";
    assert KeptLength(t[..|t| - 1]) == |t| - 1;
    assert KeptLength(t) == |t| - 1;
  }

  /** The title used for the channel at index `i`: the single title verbatim
      (not trimmed) in single mode, otherwise the parsed list read
      cyclically, `titles[i % titles.length]`. */
  function TitleFor(mode: TitleMode, single: string, titles: seq<string>, i: nat): (t: string)
    requires mode == Multiple ==> |titles| > 0
    ensures mode == Single ==> t == single
    ensures mode == Multiple ==> t in titles
  {
    if mode == Single then single else titles[i % |titles|]
  }

  /** Reference definition of cycling through a list: past the end of the
      list, start again from the beginning. */
  function Cycle(titles: seq<string>, i: nat): string
    requires |titles| > 0
    decreases i
  {
    if i < |titles| then titles[i] else Cycle(titles, i - |titles|)
  }

  /** In multiple mode the title for channel `i` is the reference cycle. */
  lemma {:induction false} TitleForCycles(titles: seq<string>, single: string, i: nat)
    requires |titles| > 0
    ensures TitleFor(Multiple, single, titles, i) == Cycle(titles, i)
    decreases i
  {
    var n := |titles|;
    if i >= n {
      TitleForCycles(titles, single, i - n);
      ModShift(i, n);
    }
  }

  /** Reducing an index by the list length keeps its remainder. */
  lemma ModShift(i: nat, n: nat)
    requires 0 < n <= i
    ensures i % n == (i - n) % n
  {
    var q, r := (i - n) / n, (i - n) % n;
    assert i == (q + 1) * n + r;
    ModUnique(i, n, q + 1, r);
  }

  /** The remainder is determined by any decomposition `i == q * n + r`. */
  lemma ModUnique(i: nat, n: nat, q: nat, r: nat)
    requires 0 <= r < n && i == q * n + r
    ensures i % n == r
  {
    var q0, r0 := i / n, i % n;
    assert i == q0 * n + r0;
    if q0 < q {
      MulMono(q0 + 1, q, n);
      assert false;
    } else if q < q0 {
      MulMono(q + 1, q0, n);
      assert false;
    }
  }

  /** Multiplying by a natural number preserves order. */
  lemma MulMono(a: nat, b: nat, n: nat)
    requires a <= b
    ensures a * n <= b * n
  {
    assert b * n == a * n + (b - a) * n;
  }

  /** Two titles over four channels give A, B, A, B. */
  lemma TwoTitlesFourChannels()
    ensures ParseTitles("A\nB") == ["A", "B"]
    ensures var titles := ParseTitles("A\nB");
      seq(4, i requires 0 <= i < 4 => TitleFor(Multiple, "", titles, i)) == ["A", "B", "A", "B"]
  {
    assert Trim("A\nB") == "A\nB";
    SplitNoSep("B", '\n');
    SplitFirstPiece("A", "B", '\n');
    assert "A" + ['\n'] + "B" == "A\nB";
  }
}
