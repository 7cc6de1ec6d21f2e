/** Text extraction from an uploaded JSON document
    (`extract_text_from_object`): every object member whose value is a
    string of more than ten characters becomes a paragraph "key: value",
    objects and arrays are searched recursively, and nothing is taken from
    below the depth limit. */
module JsonText {

  /** A parsed JSON value. Objects keep their members in document order. */
  datatype Json =
    | Null
    | Bool(b: bool)
    | Number(n: int)
    | Str(s: string)
    | Array(items: seq<Json>)
    | Object(members: seq<Member>)

  datatype Member = Member(key: string, value: Json)

  // ---------------------------------------------------------------------
  // The text, defined structurally.

  /** The text extracted from `j` found at depth `depth`. */
  function Extract(j: Json, maxDepth: nat, depth: nat): string
    decreases j
  {
    if depth > maxDepth then ""
    else match j
      case Object(ms) => MembersText(ms, maxDepth, depth)
      case Array(items) => ItemsText(items, maxDepth, depth)
      case _ => ""
  }

  /** The members of an object at depth `depth`, in order. */
  function MembersText(ms: seq<Member>, maxDepth: nat, depth: nat): string
    decreases ms
  {
    if ms == [] then ""
    else MembersText(ms[..|ms| - 1], maxDepth, depth) + MemberText(ms[|ms| - 1], maxDepth, depth)
  }

  /** One member of an object at depth `depth`: a paragraph for a long
      string, the text of a nested object or array one level deeper, and
      nothing for anything else. */
  function MemberText(m: Member, maxDepth: nat, depth: nat): string
    decreases m
  {
    if m.value.Str? && |m.value.s| > 10 then Paragraph(m.key, m.value.s)
    else if m.value.Object? || m.value.Array? then Extract(m.value, maxDepth, depth + 1)
    else ""
  }

  /** The items of an array at depth `depth`, each one level deeper. */
  function ItemsText(items: seq<Json>, maxDepth: nat, depth: nat): string
    decreases items
  {
    if items == [] then ""
    else ItemsText(items[..|items| - 1], maxDepth, depth) + Extract(items[|items| - 1], maxDepth, depth + 1)
  }

  /** `f"{key}: {value}\n\n"` */
  function Paragraph(key: string, value: string): string {
    key + ": " + value + "\n\n"
  }

  // ---------------------------------------------------------------------
  // The extraction as app.py performs it.

  /** `extract_text_from_object(obj, max_depth, current_depth)`: loops over
      the members or items and appends to `text`. */
  method ExtractTextFromObject(obj: Json, maxDepth: nat, depth: nat) returns (text: string)
    ensures text == Extract(obj, maxDepth, depth)
    decreases obj
  {
    if depth > maxDepth {
      return "";
    }
    text := "";
    match obj {
      case Object(ms) =>
        for i := 0 to |ms|
          invariant text == MembersText(ms[..i], maxDepth, depth)
        {
          assert ms[..i + 1][..i] == ms[..i];
          var key, value := ms[i].key, ms[i].value;
          if value.Str? && |value.s| > 10 {
            text := text + key + ": " + value.s + "\n\n";
          } else if value.Object? || value.Array? {
            assert ms[i] in ms;
            var sub := ExtractTextFromObject(value, maxDepth, depth + 1);
            text := text + sub;
          }
        }
        assert ms[..|ms|] == ms;
      case Array(items) =>
        for i := 0 to |items|
          invariant text == ItemsText(items[..i], maxDepth, depth)
        {
          assert items[..i + 1][..i] == items[..i];
          var sub := ExtractTextFromObject(items[i], maxDepth, depth + 1);
          text := text + sub;
        }
        assert items[..|items|] == items;
      case _ =>
    }
  }

  // ---------------------------------------------------------------------
  // What the text holds: the list of long string members, in document
  // order, each formatted as a paragraph.

  datatype Entry = Entry(key: string, value: string)

  /** The long string members reachable from `j` within the depth limit, in
      document order. */
  function Entries(j: Json, maxDepth: nat, depth: nat): seq<Entry>
    decreases j
  {
    if depth > maxDepth then []
    else match j
      case Object(ms) => MembersEntries(ms, maxDepth, depth)
      case Array(items) => ItemsEntries(items, maxDepth, depth)
      case _ => []
  }

  function MembersEntries(ms: seq<Member>, maxDepth: nat, depth: nat): seq<Entry>
    decreases ms
  {
    if ms == [] then []
    else MembersEntries(ms[..|ms| - 1], maxDepth, depth) + MemberEntries(ms[|ms| - 1], maxDepth, depth)
  }

  function MemberEntries(m: Member, maxDepth: nat, depth: nat): seq<Entry>
    decreases m
  {
    if m.value.Str? && |m.value.s| > 10 then [Entry(m.key, m.value.s)]
    else if m.value.Object? || m.value.Array? then Entries(m.value, maxDepth, depth + 1)
    else []
  }

  function ItemsEntries(items: seq<Json>, maxDepth: nat, depth: nat): seq<Entry>
    decreases items
  {
    if items == [] then []
    else ItemsEntries(items[..|items| - 1], maxDepth, depth) + Entries(items[|items| - 1], maxDepth, depth + 1)
  }

  /** The paragraphs of a list of entries, one after the other. */
  function Format(es: seq<Entry>): string {
    if es == [] then ""
    else Format(es[..|es| - 1]) + Paragraph(es[|es| - 1].key, es[|es| - 1].value)
  }

  /** Formatting distributes over concatenation. */
  lemma {:induction false} FormatAppend(a: seq<Entry>, b: seq<Entry>)
    ensures Format(a + b) == Format(a) + Format(b)
    decreases |b|
  {
    if b == [] {
      assert a + b == a;
    } else {
      var n := |b| - 1;
      var last := b[n];
      assert (a + b)[..|a + b| - 1] == a + b[..n];
      assert (a + b)[|a + b| - 1] == last;
      FormatAppend(a, b[..n]);
      var pa := Paragraph(last.key, last.value);
      assert Format(a + b) == Format(a + b[..n]) + pa;
      assert Format(b) == Format(b[..n]) + pa;
    }
  }

  /** The extracted text is exactly the formatted entries. */
  lemma {:induction false} ExtractIsFormat(j: Json, maxDepth: nat, depth: nat)
    ensures Extract(j, maxDepth, depth) == Format(Entries(j, maxDepth, depth))
    decreases j
  {
    if depth <= maxDepth {
      match j
      case Object(ms) => MembersIsFormat(ms, maxDepth, depth);
      case Array(items) => ItemsIsFormat(items, maxDepth, depth);
      case _ =>
    }
  }

  lemma {:induction false} MembersIsFormat(ms: seq<Member>, maxDepth: nat, depth: nat)
    ensures MembersText(ms, maxDepth, depth) == Format(MembersEntries(ms, maxDepth, depth))
    decreases ms
  {
    if ms != [] {
      var p, m := ms[..|ms| - 1], ms[|ms| - 1];
      MembersIsFormat(p, maxDepth, depth);
      MemberIsFormat(m, maxDepth, depth);
      FormatAppend(MembersEntries(p, maxDepth, depth), MemberEntries(m, maxDepth, depth));
    }
  }

  lemma {:induction false} MemberIsFormat(m: Member, maxDepth: nat, depth: nat)
    ensures MemberText(m, maxDepth, depth) == Format(MemberEntries(m, maxDepth, depth))
    decreases m
  {
    if m.value.Str? && |m.value.s| > 10 {
      assert [Entry(m.key, m.value.s)][..0] == [];
    } else if m.value.Object? || m.value.Array? {
      ExtractIsFormat(m.value, maxDepth, depth + 1);
    }
  }

  lemma {:induction false} ItemsIsFormat(items: seq<Json>, maxDepth: nat, depth: nat)
    ensures ItemsText(items, maxDepth, depth) == Format(ItemsEntries(items, maxDepth, depth))
    decreases items
  {
    if items != [] {
      var p, x := items[..|items| - 1], items[|items| - 1];
      ItemsIsFormat(p, maxDepth, depth);
      ExtractIsFormat(x, maxDepth, depth + 1);
      FormatAppend(ItemsEntries(p, maxDepth, depth), Entries(x, maxDepth, depth + 1));
    }
  }

  /** Every entry holds a string of more than ten characters. */
  lemma {:induction false} EntriesLong(j: Json, maxDepth: nat, depth: nat)
    ensures forall e :: e in Entries(j, maxDepth, depth) ==> |e.value| > 10
    decreases j
  {
    if depth <= maxDepth {
      match j
      case Object(ms) => MembersLong(ms, maxDepth, depth);
      case Array(items) => ItemsLong(items, maxDepth, depth);
      case _ =>
    }
  }

  lemma {:induction false} MembersLong(ms: seq<Member>, maxDepth: nat, depth: nat)
    ensures forall e :: e in MembersEntries(ms, maxDepth, depth) ==> |e.value| > 10
    decreases ms
  {
    if ms != [] {
      var m := ms[|ms| - 1];
      MembersLong(ms[..|ms| - 1], maxDepth, depth);
      if m.value.Object? || m.value.Array? {
        EntriesLong(m.value, maxDepth, depth + 1);
      }
    }
  }

  lemma {:induction false} ItemsLong(items: seq<Json>, maxDepth: nat, depth: nat)
    ensures forall e :: e in ItemsEntries(items, maxDepth, depth) ==> |e.value| > 10
    decreases items
  {
    if items != [] {
      ItemsLong(items[..|items| - 1], maxDepth, depth);
      EntriesLong(items[|items| - 1], maxDepth, depth + 1);
    }
  }

  /** Only the remaining depth budget matters: starting `k` levels deeper
      with a limit `k` higher gives the same entries. */
  lemma {:induction false} DepthShift(j: Json, maxDepth: nat, depth: nat, k: nat)
    ensures Entries(j, maxDepth + k, depth + k) == Entries(j, maxDepth, depth)
    decreases j
  {
    if depth <= maxDepth {
      match j
      case Object(ms) => MembersShift(ms, maxDepth, depth, k);
      case Array(items) => ItemsShift(items, maxDepth, depth, k);
      case _ =>
    }
  }

  lemma {:induction false} MembersShift(ms: seq<Member>, maxDepth: nat, depth: nat, k: nat)
    ensures MembersEntries(ms, maxDepth + k, depth + k) == MembersEntries(ms, maxDepth, depth)
    decreases ms
  {
    if ms != [] {
      var m := ms[|ms| - 1];
      MembersShift(ms[..|ms| - 1], maxDepth, depth, k);
      if m.value.Object? || m.value.Array? {
        DepthShift(m.value, maxDepth, depth + 1, k);
      }
    }
  }

  lemma {:induction false} ItemsShift(items: seq<Json>, maxDepth: nat, depth: nat, k: nat)
    ensures ItemsEntries(items, maxDepth + k, depth + k) == ItemsEntries(items, maxDepth, depth)
    decreases items
  {
    if items != [] {
      ItemsShift(items[..|items| - 1], maxDepth, depth, k);
      DepthShift(items[|items| - 1], maxDepth, depth + 1, k);
    }
  }

  /** With the default limit of three, an object nested four levels below
      the top yields nothing: `{"a": {"b": {"c": {"d": {"e": long}}}}}`. */
  lemma TooDeep(long: string)
    requires |long| > 10
    ensures Extract(Object([Member("a", Object([Member("b", Object([Member("c",
              Object([Member("d", Object([Member("e", Str(long))]))]))]))]))]), 3, 0) == ""
  {
    var e := Object([Member("e", Str(long))]);
    assert Extract(e, 3, 4) == "";
    var d := Object([Member("d", e)]);
    assert MembersText([Member("d", e)], 3, 3) == MemberText(Member("d", e), 3, 3);
    assert Extract(d, 3, 3) == "";
    var c := Object([Member("c", d)]);
    assert MembersText([Member("c", d)], 3, 2) == MemberText(Member("c", d), 3, 2);
    var b := Object([Member("b", c)]);
    assert MembersText([Member("b", c)], 3, 1) == MemberText(Member("b", c), 3, 1);
    assert MembersText([Member("a", b)], 3, 0) == MemberText(Member("a", b), 3, 0);
  }

  /** A long string directly under the top-level object is one paragraph. */
  lemma TopLevelString(key: string, long: string)
    requires |long| > 10
    ensures Extract(Object([Member(key, Str(long))]), 3, 0) == key + ": " + long + "\n\n"
  {
    var m := Member(key, Str(long));
    assert [m][..0] == [];
    assert MembersText([m], 3, 0) == MemberText(m, 3, 0);
  }

  /** Strings that are array items, not object members, are never
      taken, however long. */
  lemma {:induction false} ArrayStringsIgnored(items: seq<Json>, maxDepth: nat, depth: nat)
    requires forall i :: 0 <= i < |items| ==> items[i].Str?
    ensures ItemsText(items, maxDepth, depth) == ""
    decreases |items|
  {
    if items != [] {
      var p := items[..|items| - 1];
      assert forall i :: 0 <= i < |p| ==> p[i] == items[i];
      ArrayStringsIgnored(p, maxDepth, depth);
    }
  }
}
