/**
 * The period indexer: from the names in the source directory, in listing order,
 * a mapping from each 6-digit period (YYYYMM) found at the start of a name to
 * the archive that holds it. The mapping is a Python dict, so it remembers the
 * order in which periods were first inserted; assigning an existing period
 * again replaces its archive and keeps its place (last listed wins).
 */
module PeriodIndex {
  import opened Cells
  import opened Tables

  /** `re.match(r'^\d{6}', name)` succeeds: the first six characters are digits
      (further digits may follow). */
  predicate HasPeriodPrefix(name: string)
  {
    |name| >= 6 && forall i :: 0 <= i < 6 ==> IsDigit(name[i])
  }

  predicate IsPeriodText(s: string)
  {
    |s| == 6 && AllDigits(s)
  }

  /** A period key: exactly six digits. */
  type Period = s: string | IsPeriodText(s) witness "000000"

  /** The name starts with this period's six digits. */
  predicate ListsPeriod(name: string, p: Period)
  {
    HasPeriodPrefix(name) && name[..6] == p
  }

  /** The dict `mapa`: its keys in insertion order, and the archive of each key. */
  datatype Index = Index(order: seq<Period>, archive: map<Period, string>)

  /** `mapa[p] = name` on an insertion-ordered dict: p now maps to name, and
      reassigning a key does not move it. */
  function Assign(idx: Index, p: Period, name: string): (r: Index)
    ensures p in r.archive && r.archive[p] == name
    ensures p in idx.archive ==> r.order == idx.order
  {
    Index(if p in idx.archive then idx.order else idx.order + [p], idx.archive[p := name])
  }

  /** Every other key keeps its archive, the keys already present keep their places,
      and at most one key (a new one) is added, last. */
  lemma AssignKeepsOthers(idx: Index, p: Period, name: string)
    ensures var r := Assign(idx, p, name);
            && (forall q :: q != p ==> (q in r.archive <==> q in idx.archive))
            && (forall q :: q != p && q in idx.archive ==> r.archive[q] == idx.archive[q])
            && r.order[..|idx.order|] == idx.order
            && |idx.order| <= |r.order| <= |idx.order| + 1
  {
  }

  /** The dict after the first n listed names have been visited: at most one key per
      name. */
  function IndexUpTo(names: seq<string>, n: nat): (r: Index)
    requires n <= |names|
    ensures |r.order| <= n
  {
    if n == 0 then Index([], map[])
    else
      var idx := IndexUpTo(names, n - 1);
      var name := names[n - 1];
      if HasPeriodPrefix(name) then Assign(idx, name[..6], name) else idx
  }

  /** `mapear_arquivos_e_periodos` over a directory whose listing is `names`. */
  method IndexByPeriod(names: seq<string>) returns (idx: Index)
    ensures idx == IndexUpTo(names, |names|)
  {
    idx := Index([], map[]);
    var i := 0;
    while i < |names|
      invariant 0 <= i <= |names|
      invariant idx == IndexUpTo(names, i)
    {
      var name := names[i];
      if HasPeriodPrefix(name) {
        var period := name[..6];
        idx := Assign(idx, period, name);
      }
      i := i + 1;
    }
  }

  /** The position of the first listed name that starts with period p. */
  function FirstListed(names: seq<string>, n: nat, p: Period): (r: nat)
    requires n <= |names|
    requires exists i :: 0 <= i < n && ListsPeriod(names[i], p)
    ensures r < n && ListsPeriod(names[r], p)
    ensures forall i :: 0 <= i < r ==> !ListsPeriod(names[i], p)
    decreases n
  {
    if exists i :: 0 <= i < n - 1 && ListsPeriod(names[i], p) then FirstListed(names, n - 1, p)
    else n - 1
  }

  /** The dict is well formed: each key once in the order, the order lists exactly the keys. */
  lemma {:induction false} IndexWellFormed(names: seq<string>, n: nat)
    requires n <= |names|
    ensures Distinct(IndexUpTo(names, n).order)
    ensures forall p :: p in IndexUpTo(names, n).archive <==> p in IndexUpTo(names, n).order
    decreases n
  {
    if n > 0 {
      IndexWellFormed(names, n - 1);
      var idx := IndexUpTo(names, n - 1);
      var name := names[n - 1];
      if HasPeriodPrefix(name) && name[..6] !in idx.archive {
        DistinctAppend(idx.order, [name[..6]]);
      }
    }
  }

  /** A key is present exactly when some listed name starts with it; no name whose
      first six characters are not all digits (a name shorter than six characters
      included) is ever the archive of a key; and the archive of a key is one of the
      listed names and starts with that key. */
  lemma {:induction false} IndexKeysAndArchives(names: seq<string>, n: nat)
    requires n <= |names|
    ensures forall p :: p in IndexUpTo(names, n).archive <==> exists i :: 0 <= i < n && ListsPeriod(names[i], p)
    ensures forall p :: p in IndexUpTo(names, n).archive ==>
              IndexUpTo(names, n).archive[p] in names[..n] && ListsPeriod(IndexUpTo(names, n).archive[p], p)
    ensures forall name :: !HasPeriodPrefix(name) ==> name !in IndexUpTo(names, n).archive.Values
    decreases n
  {
    if n > 0 {
      IndexKeysAndArchives(names, n - 1);
      assert names[..n] == names[..n - 1] + [names[n - 1]];
      var idx := IndexUpTo(names, n);
      var before := IndexUpTo(names, n - 1);
      forall p ensures p in idx.archive <==> exists i :: 0 <= i < n && ListsPeriod(names[i], p) {
        if ListsPeriod(names[n - 1], p) {
          assert p in idx.archive;
        } else {
          assert p in idx.archive <==> p in before.archive;
          assert (exists i :: 0 <= i < n && ListsPeriod(names[i], p))
             <==> (exists i :: 0 <= i < n - 1 && ListsPeriod(names[i], p));
        }
      }
    }
  }

  /** Names without a six-digit prefix leave the dict empty. */
  lemma {:induction false} IndexOfUnrelatedNames(names: seq<string>, n: nat)
    requires n <= |names| && forall i :: 0 <= i < n ==> !HasPeriodPrefix(names[i])
    ensures IndexUpTo(names, n) == Index([], map[])
  {
    if n > 0 {
      IndexOfUnrelatedNames(names, n - 1);
    }
  }

  /** Last listed wins: the archive of a key is the last listed name starting with it. */
  lemma {:induction false} IndexLastWins(names: seq<string>, n: nat, p: Period)
    requires n <= |names|
    requires p in IndexUpTo(names, n).archive
    ensures exists j :: 0 <= j < n && names[j] == IndexUpTo(names, n).archive[p]
                        && ListsPeriod(names[j], p)
                        && forall k :: j < k < n ==> !ListsPeriod(names[k], p)
    decreases n
  {
    var name := names[n - 1];
    if ListsPeriod(name, p) {
      assert names[n - 1] == IndexUpTo(names, n).archive[p];
    } else {
      IndexLastWins(names, n - 1, p);
    }
  }

  /** Listing one more name does not change where a period was first listed. */
  lemma FirstListedExtends(names: seq<string>, n: nat, p: Period)
    requires 0 < n <= |names| && exists i :: 0 <= i < n - 1 && ListsPeriod(names[i], p)
    ensures FirstListed(names, n, p) == FirstListed(names, n - 1, p)
  {
  }

  /** Keys are kept in the order in which their period was first listed. */
  lemma {:induction false} IndexOrderFirstListed(names: seq<string>, n: nat)
    requires n <= |names|
    ensures forall a :: 0 <= a < |IndexUpTo(names, n).order| ==>
              exists i :: 0 <= i < n && ListsPeriod(names[i], IndexUpTo(names, n).order[a])
    ensures forall a, b :: 0 <= a < b < |IndexUpTo(names, n).order| ==>
              FirstListed(names, n, IndexUpTo(names, n).order[a]) < FirstListed(names, n, IndexUpTo(names, n).order[b])
    decreases n
  {
    if n > 0 {
      IndexOrderFirstListed(names, n - 1);
      IndexKeysAndArchives(names, n - 1);
      IndexWellFormed(names, n - 1);
      var before := IndexUpTo(names, n - 1);
      var order := IndexUpTo(names, n).order;
      forall a | 0 <= a < |order|
        ensures exists i :: 0 <= i < n && ListsPeriod(names[i], order[a])
      {
        if a < |before.order| {
          assert order[a] == before.order[a];
          var i :| 0 <= i < n - 1 && ListsPeriod(names[i], before.order[a]);
          assert ListsPeriod(names[i], order[a]);
        } else {
          assert ListsPeriod(names[n - 1], order[a]);
        }
      }
      forall a, b | 0 <= a < b < |order|
        ensures FirstListed(names, n, order[a]) < FirstListed(names, n, order[b])
      {
        assert order[a] == before.order[a] && order[a] in before.archive;
        FirstListedExtends(names, n, order[a]);
        if b == |before.order| {
          assert order[b] !in before.archive;
        } else {
          assert order[b] == before.order[b];
          FirstListedExtends(names, n, order[b]);
        }
      }
    } else {
      assert IndexUpTo(names, n).order == [];
    }
  }

  /** `periodo[:4] + '-' + periodo[4:6]`: the tag written into every row ("202401"
      becomes "2024-01"). */
  function FormatPeriod(p: Period): (r: string)
    ensures |r| == 7 && r[4] == '-'
    ensures r[..4] + r[5..] == p
  {
    p[..4] + "-" + p[4..6]
  }

  /** Distinct periods get distinct tags, so the tag identifies the archive's period. */
  lemma FormatPeriodInjective(p: Period, q: Period)
    requires FormatPeriod(p) == FormatPeriod(q)
    ensures p == q
  {
    var r := FormatPeriod(p);
    assert p == r[..4] + r[5..] == q;
  }
}
