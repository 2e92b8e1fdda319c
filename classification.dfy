/**
 * Role classification of the files extracted from one archive: the items file is
 * the first name whose lower-case form contains "item", the events file the first
 * containing "evento", the invoices file the first name equal to neither of those.
 * Each choice is `[...][0]` on a list comprehension, so a role with no candidate
 * raises IndexError, and an ambiguous role silently takes the first candidate.
 */
module Classification {
  import opened Outcomes

  function LowerChar(c: char): char
  {
    if 'A' <= c <= 'Z' then (c as int + 32) as char else c
  }

  /** `str.lower()` on the letters A-Z. */
  function Lower(s: string): (r: string)
    ensures |r| == |s| && forall i :: 0 <= i < |s| ==> r[i] == LowerChar(s[i])
    ensures forall i :: 0 <= i < |r| ==> !('A' <= r[i] <= 'Z')
  {
    seq(|s|, i requires 0 <= i < |s| => LowerChar(s[i]))
  }

  /** sub occurs in s starting at position i. */
  predicate OccursAt(s: string, sub: string, i: int)
  {
    0 <= i <= |s| - |sub| && s[i..i + |sub|] == sub
  }

  /** Python's `sub in s`. */
  predicate Contains(s: string, sub: string)
  {
    exists i :: 0 <= i <= |s| - |sub| && OccursAt(s, sub, i)
  }

  /** `sub in name.lower()`. */
  predicate Mentions(name: string, sub: string)
  {
    Contains(Lower(name), sub)
  }

  /** The test ignores case: two names that differ only in the case of their letters
      mention the same substrings. */
  lemma MentionsIgnoresCase(name: string, other: string, sub: string)
    requires |name| == |other| && forall i :: 0 <= i < |name| ==> LowerChar(name[i]) == LowerChar(other[i])
    ensures Mentions(name, sub) <==> Mentions(other, sub)
  {
    assert Lower(name) == Lower(other);
  }

  /** A published file name spelling its role with capitals is still recognised. */
  lemma CapitalisedRoleMentioned()
    ensures Mentions("202401_NFe_NotaFiscalItem.csv", "item")
    ensures Mentions("202401_NFe_NotaFiscalEvento.csv", "evento")
  {
    var items, events := Lower("202401_NFe_NotaFiscalItem.csv"), Lower("202401_NFe_NotaFiscalEvento.csv");
    assert items[21..25] == "item";
    assert OccursAt(items, "item", 21);
    assert events[21..27] == "evento";
    assert OccursAt(events, "evento", 21);
  }

  /** x is the first listed name that mentions sub. */
  ghost predicate FirstMentioning(names: seq<string>, x: string, sub: string)
  {
    exists i :: 0 <= i < |names| && names[i] == x && Mentions(x, sub)
                && forall j :: 0 <= j < i ==> !Mentions(names[j], sub)
  }

  /** x is the first listed name different from both a and b. */
  ghost predicate FirstOther(names: seq<string>, x: string, a: string, b: string)
  {
    exists i :: 0 <= i < |names| && names[i] == x && x != a && x != b
                && forall j :: 0 <= j < i ==> names[j] == a || names[j] == b
  }

  /** `[a for a in names if sub in a.lower()]`. */
  function Mentioning(names: seq<string>, sub: string): (r: seq<string>)
    ensures |r| <= |names|
    decreases |names|
  {
    if names == [] then []
    else
      var rest := Mentioning(names[1..], sub);
      if Mentions(names[0], sub) then [names[0]] + rest else rest
  }

  /** The comprehension keeps exactly the names mentioning sub, the first of them
      first. */
  lemma {:induction false} MentioningSpec(names: seq<string>, sub: string)
    ensures var r := Mentioning(names, sub);
            && (forall x :: x in r ==> x in names && Mentions(x, sub))
            && (r == [] <==> forall i :: 0 <= i < |names| ==> !Mentions(names[i], sub))
            && (r != [] ==> FirstMentioning(names, r[0], sub))
    decreases |names|
  {
    if names != [] {
      var r, rest := Mentioning(names, sub), Mentioning(names[1..], sub);
      MentioningSpec(names[1..], sub);
      assert forall x :: x in names[1..] ==> x in names;
      if Mentions(names[0], sub) {
        assert FirstMentioning(names, r[0], sub) by {
          assert names[0] == r[0];
        }
      } else {
        assert forall i :: 1 <= i < |names| ==> names[i] == names[1..][i - 1];
        if rest != [] {
          var i :| 0 <= i < |names[1..]| && names[1..][i] == rest[0] && Mentions(rest[0], sub)
                   && forall j :: 0 <= j < i ==> !Mentions(names[1..][j], sub);
          assert names[i + 1] == rest[0];
          assert forall j :: 0 <= j < i + 1 ==> !Mentions(names[j], sub) by {
            forall j | 0 <= j < i + 1 ensures !Mentions(names[j], sub) {
              if j > 0 { assert names[j] == names[1..][j - 1]; }
            }
          }
        }
      }
    }
  }

  /** `[x for x in names if x not in [a, b]]`. */
  function Others(names: seq<string>, a: string, b: string): (r: seq<string>)
    ensures |r| <= |names|
    decreases |names|
  {
    if names == [] then []
    else
      var rest := Others(names[1..], a, b);
      if names[0] != a && names[0] != b then [names[0]] + rest else rest
  }

  /** The comprehension keeps exactly the names other than a and b, the first of them
      first. */
  lemma {:induction false} OthersSpec(names: seq<string>, a: string, b: string)
    ensures var r := Others(names, a, b);
            && (forall x :: x in r ==> x in names && x != a && x != b)
            && (r == [] <==> forall i :: 0 <= i < |names| ==> names[i] == a || names[i] == b)
            && (r != [] ==> FirstOther(names, r[0], a, b))
    decreases |names|
  {
    if names != [] {
      var r, rest := Others(names, a, b), Others(names[1..], a, b);
      OthersSpec(names[1..], a, b);
      assert forall x :: x in names[1..] ==> x in names;
      if names[0] != a && names[0] != b {
        assert FirstOther(names, r[0], a, b) by {
          assert names[0] == r[0];
        }
      } else {
        assert forall i :: 1 <= i < |names| ==> names[i] == names[1..][i - 1];
        if rest != [] {
          var i :| 0 <= i < |names[1..]| && names[1..][i] == rest[0] && rest[0] != a && rest[0] != b
                   && forall j :: 0 <= j < i ==> names[1..][j] == a || names[1..][j] == b;
          assert names[i + 1] == rest[0];
          assert forall j :: 0 <= j < i + 1 ==> names[j] == a || names[j] == b by {
            forall j | 0 <= j < i + 1 ensures names[j] == a || names[j] == b {
              if j > 0 { assert names[j] == names[1..][j - 1]; }
            }
          }
        }
      }
    }
  }

  /** The names chosen for the three roles. */
  datatype Roles = Roles(items: string, events: string, invoices: string)

  /** The three list comprehensions and their `[0]`, evaluated in source order. */
  function Classify(names: seq<string>): (r: Result<Roles>)
    ensures r.Failure? ==> r.error.NoFileFor?
  {
    var items := Mentioning(names, "item");
    if items == [] then Failure(NoFileFor(ItemsRole))
    else
      var events := Mentioning(names, "evento");
      if events == [] then Failure(NoFileFor(EventsRole))
      else
        var invoices := Others(names, items[0], events[0]);
        if invoices == [] then Failure(NoFileFor(InvoicesRole))
        else Success(Roles(items[0], events[0], invoices[0]))
  }

  /** Each role goes to the first listed name that fits it, and each `[0]` raises
      exactly when no listed name fits its role. */
  lemma ClassifyOutcome(names: seq<string>)
    ensures var r := Classify(names);
            && (r.Success? ==>
                  && FirstMentioning(names, r.value.items, "item")
                  && FirstMentioning(names, r.value.events, "evento")
                  && FirstOther(names, r.value.invoices, r.value.items, r.value.events))
            && (r == Failure(NoFileFor(ItemsRole)) <==> forall i :: 0 <= i < |names| ==> !Mentions(names[i], "item"))
            && (r == Failure(NoFileFor(EventsRole)) <==>
                  (exists i :: 0 <= i < |names| && Mentions(names[i], "item"))
                  && forall i :: 0 <= i < |names| ==> !Mentions(names[i], "evento"))
            && (r == Failure(NoFileFor(InvoicesRole)) ==>
                  forall i :: 0 <= i < |names| ==> Mentions(names[i], "item") || Mentions(names[i], "evento"))
  {
    MentioningSpec(names, "item");
    MentioningSpec(names, "evento");
    var items, events := Mentioning(names, "item"), Mentioning(names, "evento");
    if items != [] && events != [] {
      OthersSpec(names, items[0], events[0]);
      var i :| 0 <= i < |names| && names[i] == items[0] && Mentions(items[0], "item")
               && forall j :: 0 <= j < i ==> !Mentions(names[j], "item");
      var k :| 0 <= k < |names| && names[k] == events[0] && Mentions(events[0], "evento")
               && forall j :: 0 <= j < k ==> !Mentions(names[j], "evento");
    }
  }

  /** Three distinct names (as a directory listing gives) always leave a name for the
      invoices: its `[0]` never raises. */
  lemma InvoicesAlwaysFound(names: seq<string>)
    requires |names| == 3 && names[0] != names[1] && names[0] != names[2] && names[1] != names[2]
    ensures Classify(names) != Failure(NoFileFor(InvoicesRole))
  {
    var items, events := Mentioning(names, "item"), Mentioning(names, "evento");
    if items != [] && events != [] {
      OthersSpec(names, items[0], events[0]);
    }
  }

  /** Two listings with the same names, in any order and multiplicity. */
  ghost predicate SameNames(names: seq<string>, other: seq<string>)
  {
    forall x :: x in names <==> x in other
  }

  /** When every name mentioning sub is the same one, both listings pick it. */
  lemma {:induction false} MentioningHeadUnique(names: seq<string>, other: seq<string>, sub: string)
    requires SameNames(names, other)
    requires forall x, y :: x in names && y in names && Mentions(x, sub) && Mentions(y, sub) ==> x == y
    ensures Mentioning(names, sub) == [] <==> Mentioning(other, sub) == []
    ensures Mentioning(names, sub) != [] ==> Mentioning(names, sub)[0] == Mentioning(other, sub)[0]
  {
    MentioningSpec(names, sub);
    MentioningSpec(other, sub);
    var r, r' := Mentioning(names, sub), Mentioning(other, sub);
    if r != [] {
      assert r[0] in other;
      var k :| 0 <= k < |other| && other[k] == r[0];
      assert r' != [];
      assert r'[0] in names;
    }
  }

  /** When every name outside {a, b} is the same one, both listings pick it. */
  lemma {:induction false} OthersHeadUnique(names: seq<string>, other: seq<string>, a: string, b: string)
    requires SameNames(names, other)
    requires forall x, y :: x in names && y in names && x != a && x != b && y != a && y != b ==> x == y
    ensures Others(names, a, b) == [] <==> Others(other, a, b) == []
    ensures Others(names, a, b) != [] ==> Others(names, a, b)[0] == Others(other, a, b)[0]
  {
    OthersSpec(names, a, b);
    OthersSpec(other, a, b);
    var r, r' := Others(names, a, b), Others(other, a, b);
    if r != [] {
      assert r[0] in other;
      var k :| 0 <= k < |other| && other[k] == r[0];
    }
    if r' != [] {
      assert r'[0] in names;
      var k :| 0 <= k < |names| && names[k] == r'[0];
    }
  }

  /** Each role is held by a single name (possibly listed more than once): one name
      mentions "item", one mentions "evento", and every name mentioning neither is
      the same. */
  ghost predicate Unambiguous(names: seq<string>)
  {
    && (forall x, y :: x in names && y in names && Mentions(x, "item") && Mentions(y, "item") ==> x == y)
    && (forall x, y :: x in names && y in names && Mentions(x, "evento") && Mentions(y, "evento") ==> x == y)
    && (forall x, y :: x in names && y in names
          && !Mentions(x, "item") && !Mentions(x, "evento")
          && !Mentions(y, "item") && !Mentions(y, "evento")
          ==> x == y)
  }

  /** When no role is ambiguous the assignment does not depend on the listing order. */
  lemma ClassifyIgnoresOrder(names: seq<string>, reordered: seq<string>)
    requires multiset(names) == multiset(reordered)
    requires Unambiguous(names)
    ensures Classify(reordered) == Classify(names)
  {
    assert SameNames(names, reordered) by {
      forall x ensures x in names <==> x in reordered {
        assert x in names <==> x in multiset(names);
        assert x in reordered <==> x in multiset(reordered);
      }
    }
    MentioningHeadUnique(names, reordered, "item");
    MentioningHeadUnique(names, reordered, "evento");
    MentioningSpec(names, "item");
    MentioningSpec(names, "evento");
    var items, events := Mentioning(names, "item"), Mentioning(names, "evento");
    if items != [] && events != [] {
      var a, b := items[0], events[0];
      assert forall x :: x in names && x != a && x != b ==> !Mentions(x, "item") && !Mentions(x, "evento");
      OthersHeadUnique(names, reordered, a, b);
    }
  }

  /** With two items candidates the listing order decides which is read as items and
      which as invoices: nothing flags the ambiguity. */
  lemma AmbiguousItemsDependOnOrder(a: string, b: string, e: string)
    requires a != b && Mentions(a, "item") && Mentions(b, "item")
    requires !Mentions(a, "evento") && !Mentions(b, "evento")
    requires Mentions(e, "evento") && !Mentions(e, "item")
    ensures Classify([a, b, e]) == Success(Roles(a, e, b))
    ensures Classify([b, a, e]) == Success(Roles(b, e, a))
  {
    ClassifiesTriple(a, b, e);
    ClassifiesTriple(b, a, e);
  }

  lemma ClassifiesTriple(a: string, b: string, e: string)
    requires a != b && Mentions(a, "item") && !Mentions(b, "evento") && !Mentions(a, "evento")
    requires Mentions(e, "evento") && !Mentions(e, "item")
    ensures Classify([a, b, e]) == Success(Roles(a, e, b))
  {
    var names := [a, b, e];
    MentioningSpec(names, "item");
    MentioningSpec(names, "evento");
    OthersSpec(names, a, e);
    var items := Mentioning(names, "item");
    assert items != [] by { assert Mentions(names[0], "item"); }
    assert items[0] == a;
    var events := Mentioning(names, "evento");
    assert events != [] by { assert Mentions(names[2], "evento"); }
    assert events[0] == e;
    var others := Others(names, a, e);
    assert others != [] by { assert names[1] != a && names[1] != e; }
    assert others[0] == b;
  }
}
