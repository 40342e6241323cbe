/**
  The kinds of database table a sink may address (`TableType`), how one is looked up by
  name, and how a list of names becomes a set of kinds.
*/
module TableTypes {
  import opened Results
  import opened Strings

  datatype TableType = Table | PartitionedTable | View

  /** The name each kind is known by; matching against it ignores case. */
  function Name(t: TableType): string
  {
    match t
    case Table => "TABLE"
    case PartitionedTable => "PARTITIONED TABLE"
    case View => "VIEW"
  }

  /** Why a list of names does not denote a set of kinds. */
  datatype ParseError = NoTableTypes | UnknownTableType(name: string)

  /** The kinds in declaration order, the order `TableType.values()` visits them in. */
  const Kinds: seq<TableType> := [Table, PartitionedTable, View]

  /** The first of `kinds` whose name equals `n` ignoring case. */
  function Find(n: string, kinds: seq<TableType>): (r: Option<TableType>)
    ensures r.Some? ==> r.value in kinds && EqualsIgnoreCase(n, Name(r.value))
    ensures r.None? ==> forall i :: 0 <= i < |kinds| ==> !EqualsIgnoreCase(n, Name(kinds[i]))
  {
    if kinds == [] then None
    else if EqualsIgnoreCase(n, Name(kinds[0])) then Some(kinds[0])
    else Find(n, kinds[1..])
  }

  /**
    `TableType.get`: the kind whose name equals `name`, once trimmed at its ends and
    compared without regard to case. Blanks inside `name` are part of it.
  */
  function Get(name: string): (r: Option<TableType>)
    ensures r.Some? ==> EqualsIgnoreCase(Trim(name), Name(r.value))
    ensures r.None? ==>
      && !EqualsIgnoreCase(Trim(name), Name(Table))
      && !EqualsIgnoreCase(Trim(name), Name(PartitionedTable))
      && !EqualsIgnoreCase(Trim(name), Name(View))
  {
    var r := Find(Trim(name), Kinds);
    assert r.None? ==>
      && !EqualsIgnoreCase(Trim(name), Name(Kinds[0]))
      && !EqualsIgnoreCase(Trim(name), Name(Kinds[1]))
      && !EqualsIgnoreCase(Trim(name), Name(Kinds[2]));
    r
  }

  /** `Get` finds a kind exactly when the trimmed name equals that kind's name, ignoring case. */
  lemma GetIff(name: string, t: TableType)
    ensures Get(name) == Some(t) <==> EqualsIgnoreCase(Trim(name), Name(t))
  {
    var n := Trim(name);
    if EqualsIgnoreCase(n, Name(t)) {
      assert t == Kinds[0] || t == Kinds[1] || t == Kinds[2];
      var r := Find(n, Kinds);
      if r.Some? {
        NamesDistinct(n, r.value, t);
      }
    }
  }

  /** No string equals the names of two different kinds: the names have different lengths. */
  lemma NamesDistinct(n: string, t: TableType, u: TableType)
    requires EqualsIgnoreCase(n, Name(t)) && EqualsIgnoreCase(n, Name(u))
    ensures t == u
  {
    assert |Name(t)| == |n| == |Name(u)|;
  }

  /** Every kind's own name finds that kind. */
  lemma GetName(t: TableType)
    ensures Get(Name(t)) == Some(t)
  {
    assert IsTrimmed(Name(t));
    GetIff(Name(t), t);
  }

  /** The lookup of every item, as `values.stream().map(TableType::get)` computes it. */
  function Lookups(items: seq<string>): (found: seq<Option<TableType>>)
    ensures |found| == |items|
    ensures forall i :: 0 <= i < |items| ==> found[i] == Get(items[i])
  {
    seq(|items|, i requires 0 <= i < |items| => Get(items[i]))
  }

  /**
    The kinds the lookups found, stopping at the first item whose lookup found none.
    Every lookup must succeed, and then the set holds exactly the kinds found.
  */
  function Collect(items: seq<string>, found: seq<Option<TableType>>): (r: Result<set<TableType>, ParseError>)
    requires |found| == |items|
    ensures r.Ok? <==> None !in found
    ensures r.Ok? ==> forall t :: t in r.value <==> Some(t) in found
    ensures r.Err? ==> exists i :: 0 <= i < |found| && found[i] == None && r.error == UnknownTableType(items[i])
  {
    if |found| == 0 then Ok({})
    else
      match found[0]
      case None => Err(UnknownTableType(items[0]))
      case Some(t) =>
        var rest := Collect(items[1..], found[1..]);
        assert found == [found[0]] + found[1..];
        match rest
        case Err(e) => Err(e)
        case Ok(ts) => Ok({t} + ts)
  }

  /**
    `TableType.parse`: the set (an `EnumSet`) of the kinds the names denote. A name that
    denotes no kind is rejected, and so is an empty list (an `EnumSet` cannot be copied
    from an empty collection).
  */
  function Parse(items: seq<string>): (r: Result<set<TableType>, ParseError>)
    ensures r.Ok? <==> |items| > 0 && None !in Lookups(items)
    ensures r.Ok? ==> r.value != {}
    ensures r.Ok? ==> forall t :: t in r.value <==> Some(t) in Lookups(items)
    ensures r.Err? && |items| > 0 ==> exists i :: 0 <= i < |items| && Get(items[i]) == None && r.error == UnknownTableType(items[i])
    ensures |items| == 0 ==> r == Err(NoTableTypes)
  {
    if |items| == 0 then Err(NoTableTypes)
    else
      var found := Lookups(items);
      var r := Collect(items, found);
      assert r.Ok? ==> found[0].value in r.value;
      r
  }

  /** Every name in `items` denotes a kind. */
  predicate AllKnown(items: seq<string>)
  {
    forall i :: 0 <= i < |items| ==> Get(items[i]).Some?
  }

  /** Some name in `items` denotes `t`. */
  predicate NamesKind(items: seq<string>, t: TableType)
  {
    exists i :: 0 <= i < |items| && Get(items[i]) == Some(t)
  }

  /**
    A list of names is accepted exactly when it is not empty and every name denotes a
    kind, and then the set holds exactly the kinds some name denotes.
  */
  lemma ParseIff(items: seq<string>)
    ensures Parse(items).Ok? <==> |items| > 0 && AllKnown(items)
    ensures Parse(items).Ok? ==> forall t :: t in Parse(items).value <==> NamesKind(items, t)
  {
    var found := Lookups(items);
    if |items| > 0 && !AllKnown(items) {
      var i :| 0 <= i < |items| && Get(items[i]).None?;
      assert found[i] == None;
    }
    if Parse(items).Ok? {
      forall i | 0 <= i < |items| ensures Get(items[i]).Some? {
        assert found[i] in found;
      }
      forall t ensures t in Parse(items).value <==> NamesKind(items, t) {
        if t in Parse(items).value {
          var i :| 0 <= i < |found| && found[i] == Some(t);
        }
        if NamesKind(items, t) {
          var i :| 0 <= i < |items| && Get(items[i]) == Some(t);
          assert found[i] in found;
        }
      }
    }
  }

  /** A list holding one name denotes just the kind that name denotes. */
  lemma ParseOne(n: string, t: TableType)
    requires Get(n) == Some(t)
    ensures Parse([n]) == Ok({t})
  {
    var found := Lookups([n]);
    assert found == [Some(t)];
    var r := Parse([n]);
    assert r.Ok? && t in r.value;
    forall u | u in r.value ensures u == t {
      assert Some(u) in found;
    }
    assert r.value == {t};
  }

  /** A name denoting `t` in front of a non-empty list adds `t` to what the list gives. */
  lemma ParseCons(n: string, rest: seq<string>, t: TableType)
    requires Get(n) == Some(t) && |rest| > 0
    ensures Parse([n] + rest) == if Parse(rest).Ok? then Ok({t} + Parse(rest).value) else Parse(rest)
  {
    var items := [n] + rest;
    var found := Lookups(items);
    assert found[0] == Some(t);
    assert items[1..] == rest;
    assert found[1..] == Lookups(rest);
    assert Parse(items) == Collect(items, found);
    assert Parse(rest) == Collect(rest, Lookups(rest));
  }

  /** Every lookup in `f` also occurs in `g`. */
  predicate Covers(f: seq<Option<TableType>>, g: seq<Option<TableType>>)
  {
    forall x :: x in f ==> x in g
  }

  /**
    The order and repetition of the lookups do not matter: lookups covering each other
    are both accepted or both rejected, and when accepted they give the same set.
  */
  lemma CollectIgnoresOrder(xs: seq<string>, f: seq<Option<TableType>>, ys: seq<string>, g: seq<Option<TableType>>)
    requires |f| == |xs| && |g| == |ys|
    requires Covers(f, g) && Covers(g, f)
    ensures Collect(xs, f).Ok? == Collect(ys, g).Ok?
    ensures Collect(xs, f).Ok? ==> Collect(xs, f).value == Collect(ys, g).value
  {
  }

  /** Lists whose names occur in each other look up kinds that occur in each other. */
  lemma LookupsCover(a: seq<string>, b: seq<string>)
    requires forall n :: n in a ==> n in b
    ensures Covers(Lookups(a), Lookups(b))
  {
    var f, g := Lookups(a), Lookups(b);
    forall x | x in f ensures x in g {
      var i :| 0 <= i < |f| && f[i] == x;
      assert a[i] in b;
      var j :| 0 <= j < |b| && b[j] == a[i];
      assert g[j] == x;
    }
  }

  /**
    Listing the same names in the other order gives the same verdict and, when
    accepted, the same set: `"view,table"` and `"table,view"` mean the same.
  */
  lemma ParseIgnoresOrder(xs: seq<string>, ys: seq<string>)
    ensures Parse(xs + ys).Ok? == Parse(ys + xs).Ok?
    ensures Parse(xs + ys).Ok? ==> Parse(xs + ys).value == Parse(ys + xs).value
  {
    if |xs + ys| > 0 {
      LookupsCover(xs + ys, ys + xs);
      LookupsCover(ys + xs, xs + ys);
      CollectIgnoresOrder(xs + ys, Lookups(xs + ys), ys + xs, Lookups(ys + xs));
    }
  }
}
