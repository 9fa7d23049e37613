/** The texts of the script list: each item is a script name behind a status
    mark, green for a running script and red otherwise. */
module Labels {
  import opened Supervisor

  /** U+1F7E2 LARGE GREEN CIRCLE and U+1F534 LARGE RED CIRCLE. */
  const Green: char := '\U{1F7E2}'
  const Red: char := '\U{1F534}'
  const RunningMark: string := [Green, ' ']
  const IdleMark: string := [Red, ' ']

  predicate StartsWith(text: string, prefix: string)
  {
    |prefix| <= |text| && text[..|prefix|] == prefix
  }

  /** The mark an item carries for a status: green exactly for "running". */
  function MarkFor(status: Status): (mark: string)
    ensures |mark| == 2 && mark[1] == ' '
    ensures mark[0] == Green <==> status == Running
  {
    if status == Running then RunningMark else IdleMark
  }

  /** The text of the list item of a script. */
  function Label(name: string, status: Status): (text: string)
    ensures |text| == |name| + 2 && text[..2] == MarkFor(status) && text[2..] == name
  {
    MarkFor(status) + name
  }

  /** Python's `str.replace(pat, rep)` for a non-empty pattern: the leftmost
      occurrence is replaced, and the scan goes on after it. */
  function ReplaceAll(s: string, pat: string, rep: string): (r: string)
    requires pat != []
    ensures rep == [] ==> |r| <= |s|
    decreases |s|
  {
    if |s| < |pat| then s
    else if s[..|pat|] == pat then rep + ReplaceAll(s[|pat|..], pat, rep)
    else [s[0]] + ReplaceAll(s[1..], pat, rep)
  }

  /** A text in which the pattern's first character never occurs comes back
      unchanged. */
  lemma {:induction false} ReplaceAllAbsent(s: string, pat: string, rep: string)
    requires pat != [] && pat[0] !in s
    ensures ReplaceAll(s, pat, rep) == s
    decreases |s|
  {
    if |s| >= |pat| {
      assert s[..|pat|][0] == s[0] != pat[0];
      assert pat[0] !in s[1..] by {
        forall k | 0 <= k < |s| - 1 ensures s[1..][k] != pat[0] {
          assert s[1..][k] == s[k + 1];
        }
      }
      ReplaceAllAbsent(s[1..], pat, rep);
    }
  }

  /** How the list code recovers a script name from an item, as written:
      `.replace("🟢 ", "").replace("🔴 ", "")` over the whole text. */
  function StripStatus(text: string): (name: string)
    ensures |name| <= |text|
  {
    ReplaceAll(ReplaceAll(text, RunningMark, ""), IdleMark, "")
  }

  /** For names without either circle, the written strip recovers the name
      from its item. */
  lemma StripStatusRoundTrip(name: string, status: Status)
    requires Green !in name && Red !in name
    ensures StripStatus(Label(name, status)) == name
  {
    if status == Running {
      assert Label(name, status) == RunningMark + name;
      StripMark(RunningMark, name);
      ReplaceAllAbsent(name, IdleMark, "");
    } else {
      assert Label(name, status) == IdleMark + name == [Red] + ([' '] + name);
      ReplaceAllAbsent(name, RunningMark, "");
      SkipHead(' ', name, RunningMark, "");
      SkipHead(Red, [' '] + name, RunningMark, "");
      StripMark(IdleMark, name);
    }
  }

  /** The written strip loses part of a name that itself contains a mark: the
      file "🟢 a.py", listed as "🔴 🟢 a.py", comes back as "a.py". */
  lemma StripStatusLosesName()
    ensures var name := RunningMark + "a.py";
            StripStatus(Label(name, Stopped)) == "a.py" != name
  {
    var plain := "a.py";
    assert Green !in plain && Red !in plain;
    assert Label(RunningMark + plain, Stopped) == IdleMark + RunningMark + plain;
    KeepRedDropGreen(plain);
    StripMark(IdleMark, plain);
  }

  /** The first pass over "🔴 🟢 " + rest keeps the red mark and removes the
      green one. */
  lemma KeepRedDropGreen(rest: string)
    requires Green !in rest && Red !in rest
    ensures ReplaceAll(IdleMark + RunningMark + rest, RunningMark, "") == IdleMark + rest
  {
    var t2 := RunningMark + rest;
    assert IdleMark + RunningMark + rest == [Red] + ([' '] + t2);
    assert IdleMark + rest == [Red] + ([' '] + rest);
    StripMark(RunningMark, rest);
    SkipHead(' ', t2, RunningMark, "");
    SkipHead(Red, [' '] + t2, RunningMark, "");
  }

  /** A character other than the pattern's first is kept, and the scan goes
      on after it. */
  lemma SkipHead(c: char, s: string, pat: string, rep: string)
    requires pat != [] && c != pat[0]
    ensures ReplaceAll([c] + s, pat, rep) == [c] + ReplaceAll(s, pat, rep)
  {
    var t := [c] + s;
    assert t[1..] == s;
    if |t| >= |pat| {
      assert t[..|pat|][0] != pat[0];
    }
  }

  /** Replacing a mark at the front of a text by nothing leaves the rest,
      when the rest holds neither circle. */
  lemma StripMark(mark: string, rest: string)
    requires mark == RunningMark || mark == IdleMark
    requires Green !in rest && Red !in rest
    ensures ReplaceAll(mark + rest, mark, "") == rest
  {
    var s := mark + rest;
    assert s[..|mark|] == mark && s[|mark|..] == rest;
    ReplaceAllAbsent(rest, mark, "");
  }

  /** The intended strip: remove the one status mark an item starts with. */
  function StripLabel(text: string): (name: string)
    ensures StartsWith(text, RunningMark) || StartsWith(text, IdleMark) ==> name == text[2..]
    ensures !StartsWith(text, RunningMark) && !StartsWith(text, IdleMark) ==> name == text
  {
    if StartsWith(text, RunningMark) || StartsWith(text, IdleMark) then text[2..] else text
  }

  /** Every name, whatever characters it holds, is recovered from its item. */
  lemma LabelRoundTrip(name: string, status: Status)
    ensures StripLabel(Label(name, status)) == name
  {
    assert Label(name, status)[..2] == MarkFor(status);
  }

  /** `update_script_list_status` for an item whose script has `status`: an
      item that already carries the right mark is left alone, any other is
      rebuilt from its name with that mark. Either way it then shows the
      status and still names the same script. */
  function Relabel(text: string, status: Status): (r: string)
    ensures StartsWith(r, MarkFor(status))
    ensures StripLabel(r) == StripLabel(text)
  {
    var mark := MarkFor(status);
    if StartsWith(text, mark) then text
    else
      LabelRoundTrip(StripLabel(text), status);
      mark + StripLabel(text)
  }
}
