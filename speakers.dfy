/** Speaker extraction, shared in shape by both extractors: every stripped
    non-blank line that looks like `<name>: <utterance>` contributes its
    name (text before the FIRST colon, stripped, with a leading `[...]` tag
    and the whitespace after it removed); names of 50 characters or more
    are dropped and repeats are skipped. */
module Speakers {
  import opened Text
  import opened Seqs

  const MaxNameLength := 50

  /** Group 1 of `re.search(r'^([^:]+):', line)`: the non-empty text before
      the first colon. There is none when the line holds no colon or starts
      with one. */
  function NameField(line: string): (r: Option<string>)
    ensures r.Some? ==> 1 <= |r.value| < |line| && line[..|r.value|] == r.value
                        && line[|r.value|] == ':' && ':' !in r.value
    ensures r.None? ==> ':' !in line || line[0] == ':'
  {
    match FindChar(line, ':')
    case Some(k) => if k >= 1 then Some(line[..k]) else None
    case None => None
  }

  /** `re.sub(r'^\[.*?\]\s*', '', name)`: when the name opens with `[` and a
      `]` follows, everything through the first such `]` and the whitespace
      after it goes; otherwise the name is unchanged. */
  function StripTag(name: string): (r: string)
    ensures !(|name| > 0 && name[0] == '[' && ']' in name[1..]) ==> r == name
    ensures |name| > 0 && name[0] == '[' && ']' in name[1..] ==>
      exists j :: 1 <= j < |name| && name[j] == ']' && ']' !in name[1..j] && r == LStrip(name[j + 1..])
  {
    if |name| > 0 && name[0] == '[' then
      match FindChar(name[1..], ']')
      case Some(j) =>
        assert name[1..][..j] == name[1..j + 1];
        assert name[1..][j + 1..] == name[j + 2..];
        LStrip(name[j + 2..])
      case None => name
    else name
  }

  /** The speaker name a line contributes before the length and repeat
      checks. */
  function SpeakerName(line: string): Option<string> {
    match NameField(line)
    case Some(field) => Some(StripTag(Strip(field)))
    case None => None
  }

  /** The name each line contributes, line by line. */
  function Names(lines: seq<string>): (r: seq<Option<string>>)
    ensures |r| == |lines|
    ensures forall i :: 0 <= i < |lines| ==> r[i] == SpeakerName(lines[i])
  {
    seq(|lines|, i requires 0 <= i < |lines| => SpeakerName(lines[i]))
  }

  /** The names that pass the length check, repeats included, in line
      order. */
  function Candidates(names: seq<Option<string>>): seq<string> {
    if names == [] then []
    else Candidates(names[..|names| - 1]) + Accepted(names[|names| - 1])
  }

  /** What one line adds to the candidates: its name if it has one shorter
      than 50 characters. */
  function Accepted(name: Option<string>): seq<string> {
    match name
    case Some(n) => if |n| < MaxNameLength then [n] else []
    case None => []
  }

  /** The candidates are exactly the accepted names. */
  lemma {:induction false} CandidatesMembership(names: seq<Option<string>>)
    ensures forall x :: x in Candidates(names) <==>
      exists i :: 0 <= i < |names| && names[i] == Some(x) && |x| < MaxNameLength
  {
    if names != [] {
      var p, last := names[..|names| - 1], names[|names| - 1];
      CandidatesMembership(p);
      assert forall i :: 0 <= i < |p| ==> p[i] == names[i];
    }
  }

  /** The speaker list of `lines`: the distinct accepted names in the order
      of their first appearance. */
  function Speakers(lines: seq<string>): seq<string> {
    Dedup(Candidates(Names(lines)))
  }

  /** The extraction loop of app.py: `if name not in names and len(name) < 50:
      names.append(name)`. */
  method ExtractSpeakers(lines: seq<string>) returns (names: seq<string>)
    ensures names == Speakers(lines)
  {
    names := [];
    ghost var all := Names(lines);
    for i := 0 to |lines|
      invariant names == Dedup(Candidates(all[..i]))
    {
      assert all[..i + 1][..i] == all[..i];
      ghost var c := Candidates(all[..i]);
      assert Candidates(all[..i + 1]) == c + Accepted(all[i]);
      var field := NameField(lines[i]);
      if field.Some? {
        var name := StripTag(Strip(field.value));
        assert all[i] == Some(name);
        if |name| < MaxNameLength {
          DedupSnoc(c, name);
        } else {
          assert c + Accepted(all[i]) == c;
        }
        if name !in names && |name| < MaxNameLength {
          names := names + [name];
        }
      } else {
        assert c + Accepted(all[i]) == c;
      }
    }
    assert all[..|lines|] == all;
  }

  /** The speaker list has no repeats, every entry is shorter than 50
      characters, it holds exactly the accepted names of the lines, and it
      keeps the order in which they first appear. */
  lemma SpeakersProperties(lines: seq<string>)
    ensures NoDuplicates(Speakers(lines))
    ensures forall x :: x in Speakers(lines) ==> |x| < MaxNameLength
    ensures forall x :: x in Speakers(lines) <==>
      exists i :: 0 <= i < |lines| && SpeakerName(lines[i]) == Some(x) && |x| < MaxNameLength
    ensures InFirstOccurrenceOrder(Speakers(lines), Candidates(Names(lines)))
  {
    CandidatesMembership(Names(lines));
    DedupOrder(Candidates(Names(lines)));
  }

  /** A line opening with a timestamp such as "[00:00:15] Project
      Manager: ..." is cut at the timestamp's first colon, so no `]` is left
      for the tag removal: the name is "[00". */
  lemma TimestampedLine(rest: string)
    ensures SpeakerName("[00:" + rest) == Some("[00")
  {
    TimestampField(rest);
    var field := "[00";
    assert LStrip(field) == field by { assert !IsSpace(field[0]); }
    assert RStrip(field) == field by { assert !IsSpace(field[2]); }
    assert field[1..] == "00";
    assert FindChar("00", ']') == None by {
      assert ']' !in "00";
    }
  }

  /** The name field of a timestamped line ends at the timestamp's first
      colon. */
  lemma TimestampField(rest: string)
    ensures NameField("[00:" + rest) == Some("[00")
  {
    var line := "[00:" + rest;
    assert line[..3] == "[00";
    FindCharAt(line, ':', 3);
  }

  /** A line made of a tag and a colon yields the empty name. */
  lemma TagOnlyLine()
    ensures SpeakerName("[tag]: x") == Some("")
  {
    var line := "[tag]: x";
    var field := "[tag]";
    assert line[..5] == field;
    FindCharAt(line, ':', 5);
    assert NameField(line) == Some(field);
    assert LStrip(field) == field by { assert !IsSpace(field[0]); }
    assert RStrip(field) == field by { assert !IsSpace(field[4]); }
    assert field[1..] == "tag]";
    assert "tag]"[..3] == "tag";
    FindCharAt("tag]", ']', 3);
    assert field[5..] == "";
    assert StripTag(field) == LStrip("");
  }
}
