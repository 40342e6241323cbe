/**
  How the configuration library turns a property's text into a typed value: strings are
  trimmed, lists are cut at commas with each item trimmed, booleans are `true` or `false`
  in any case.
*/
module ConfigValues {
  import opened Results
  import opened Strings

  /**
    A LIST value: text that trims to nothing is the empty list; otherwise the items
    between commas, each trimmed. No item holds a comma or starts or ends with a blank.
  */
  function ParseList(value: string): (items: seq<string>)
    ensures Trim(value) == "" <==> items == []
    ensures forall i :: 0 <= i < |items| ==> ',' !in items[i] && IsTrimmed(items[i])
  {
    if Trim(value) == "" then []
    else
      var parts := Split(value, ',');
      forall i | 0 <= i < |parts| ensures ',' !in Trim(parts[i]) {
        TrimKeeps(parts[i], ',');
      }
      TrimAll(parts)
  }

  /** Each of `parts`, trimmed. */
  function TrimAll(parts: seq<string>): seq<string>
  {
    seq(|parts|, i requires 0 <= i < |parts| => Trim(parts[i]))
  }

  /** Trimming the items of two lists one after the other trims each list. */
  lemma TrimAllConcat(xs: seq<string>, ys: seq<string>)
    ensures TrimAll(xs + ys) == TrimAll(xs) + TrimAll(ys)
  {
    var l, r := TrimAll(xs + ys), TrimAll(xs) + TrimAll(ys);
    assert |l| == |r|;
    forall i | 0 <= i < |l| ensures l[i] == r[i] {
      if i < |xs| {
        assert (xs + ys)[i] == xs[i];
      } else {
        assert (xs + ys)[i] == ys[i - |xs|];
      }
    }
  }

  /** Items that are already trimmed are left as they are. */
  lemma TrimAllTrimmed(items: seq<string>)
    requires forall i :: 0 <= i < |items| ==> IsTrimmed(items[i])
    ensures TrimAll(items) == items
  {
    forall i | 0 <= i < |items| ensures TrimAll(items)[i] == items[i] {
      TrimTrimmed(items[i]);
    }
  }

  /**
    Comma-free items written with commas between them read back as those items, each
    trimmed, unless the text is a single blank item, which reads as the empty list.
  */
  lemma ParseListOfJoin(items: seq<string>)
    requires |items| >= 2 || (|items| == 1 && !AllBlank(items[0]))
    requires forall i :: 0 <= i < |items| ==> ',' !in items[i]
    ensures ParseList(Join(items, ',')) == TrimAll(items)
  {
    var s := Join(items, ',');
    SplitJoin(items, ',');
    if |items| >= 2 {
      JoinHasSep(items, ',');
      assert !IsBlank(s[|items[0]|]);
    } else {
      assert s == items[0];
    }
    TrimEmptyIffBlank(s);
  }

  /** Text without a comma that is not all blank reads as one item: itself, trimmed. */
  lemma ParseListOne(v: string)
    requires ',' !in v && !AllBlank(v)
    ensures ParseList(v) == [Trim(v)]
  {
    assert Join([v], ',') == v;
    ParseListOfJoin([v]);
    var r := TrimAll([v]);
    assert ParseList(v) == r;
    var q := [Trim(v)];
    assert |r| == 1 == |q| && r[0] == q[0];
  }

  /** Two comma-free texts with a comma between them read as two items: each, trimmed. */
  lemma ParseListTwo(a: string, b: string)
    requires ',' !in a && ',' !in b
    ensures ParseList(a + [','] + b) == [Trim(a)] + [Trim(b)]
  {
    var s := a + [','] + b;
    assert Join([a, b], ',') == s;
    ParseListOfJoin([a, b]);
    var r := TrimAll([a, b]);
    assert ParseList(s) == r;
    var q := [Trim(a)] + [Trim(b)];
    assert |r| == 2 == |q| && r[0] == q[0] && r[1] == q[1];
  }

  /**
    Writing trimmed, comma-free items with commas between them and reading the list
    back gives the items again (unless the text is a single empty item, which reads
    as the empty list).
  */
  lemma ParseListJoin(items: seq<string>)
    requires |items| >= 2 || (|items| == 1 && items[0] != "")
    requires forall i :: 0 <= i < |items| ==> ',' !in items[i] && IsTrimmed(items[i])
    ensures ParseList(Join(items, ',')) == items
  {
    if |items| == 1 {
      assert !IsBlank(items[0][0]);
    }
    ParseListOfJoin(items);
    TrimAllTrimmed(items);
  }

  /** A BOOLEAN value: `true` or `false` once trimmed, in any case; anything else is rejected. */
  function ParseBool(value: string): (r: Option<bool>)
    ensures r == Some(true) <==> EqualsIgnoreCase(Trim(value), "true")
    ensures r == Some(false) <==> EqualsIgnoreCase(Trim(value), "false")
    ensures r == None <==> !EqualsIgnoreCase(Trim(value), "true") && !EqualsIgnoreCase(Trim(value), "false")
  {
    var v := Trim(value);
    if EqualsIgnoreCase(v, "true") then Some(true)
    else if EqualsIgnoreCase(v, "false") then Some(false)
    else None
  }
}
