/** Sanitising labels before they reach a delegate. */
module Labels {
  import opened EchoTypes

  /** The dictionary built by walking `keys` in order: a later key that cleans
      to the same text overwrites an earlier one. */
  function SanitiseAlong(c: Cleanser, d: Dict, keys: seq<string>): Dict
    requires forall key :: key in keys ==> key in d
  {
    if keys == [] then map[] else
      var key := keys[|keys| - 1];
      var clean := c.cleanKey(key);
      SanitiseAlong(c, d, keys[..|keys| - 1])[clean := c.cleanValue(clean, d[key])]
  }

  function Sanitise(c: Cleanser, d: Dict): Dict {
    SanitiseAlong(c, d, c.order(d))
  }

  function SanitiseOptional(c: Cleanser, labels: Option<Dict>): Option<Dict> {
    if labels.Some? then Some(Sanitise(c, labels.value)) else None
  }

  /** Keys to remove are cleaned too, but those that clean to nothing are dropped. */
  function CleanKeys(c: Cleanser, keys: seq<string>): seq<string> {
    if keys == [] then [] else
      var clean := c.cleanKey(keys[|keys| - 1]);
      CleanKeys(c, keys[..|keys| - 1]) + (if clean == "" then [] else [clean])
  }

  /** The keys are cleaned one by one, in order. */
  lemma {:induction false} CleanKeysOneByOne(c: Cleanser, a: seq<string>, b: seq<string>, key: string)
    ensures CleanKeys(c, a + b) == CleanKeys(c, a) + CleanKeys(c, b)
    ensures CleanKeys(c, [key]) == if c.cleanKey(key) == "" then [] else [c.cleanKey(key)]
  {
    assert [key][..0] == [];
    if b == [] {
      assert a + b == a;
    } else {
      CleanKeysOneByOne(c, a, b[..|b| - 1], key);
      assert (a + b)[..|a + b| - 1] == a + b[..|b| - 1];
    }
  }

  ghost predicate Idempotent(c: Cleanser) {
    && (forall key :: c.cleanKey(c.cleanKey(key)) == c.cleanKey(key))
    && (forall key, v ::
          var clean := c.cleanKey(key);
          c.cleanValue(clean, c.cleanValue(clean, v)) == c.cleanValue(clean, v))
  }

  /** Two keys of `d` that clean to the same text carry the same cleaned value. */
  ghost predicate NoConflict(c: Cleanser, d: Dict) {
    forall a, b :: a in d && b in d && c.cleanKey(a) == c.cleanKey(b) ==>
      c.cleanValue(c.cleanKey(a), d[a]) == c.cleanValue(c.cleanKey(b), d[b])
  }

  /** A cleaned key is present only if some walked key cleans to it. */
  lemma {:induction false} SanitisedFrom(c: Cleanser, d: Dict, keys: seq<string>, clean: string) returns (key: string)
    requires forall key :: key in keys ==> key in d
    requires clean in SanitiseAlong(c, d, keys)
    ensures key in keys && c.cleanKey(key) == clean
  {
    key := keys[|keys| - 1];
    if c.cleanKey(key) != clean {
      key := SanitisedFrom(c, d, keys[..|keys| - 1], clean);
    }
  }

  /** The last walked key that cleans to a text decides its value. */
  lemma {:induction false} LastKeyWins(c: Cleanser, d: Dict, keys: seq<string>, i: nat)
    requires forall key :: key in keys ==> key in d
    requires i < |keys|
    requires forall j :: i < j < |keys| ==> c.cleanKey(keys[j]) != c.cleanKey(keys[i])
    ensures var clean := c.cleanKey(keys[i]);
            clean in SanitiseAlong(c, d, keys)
            && SanitiseAlong(c, d, keys)[clean] == c.cleanValue(clean, d[keys[i]])
  {
    if i < |keys| - 1 {
      LastKeyWins(c, d, keys[..|keys| - 1], i);
    }
  }

  /** Without conflicts, every walked key finds its own cleaned value. */
  lemma {:induction false} OwnValue(c: Cleanser, d: Dict, keys: seq<string>, key: string)
    requires forall key :: key in keys ==> key in d
    requires NoConflict(c, d) && key in keys
    ensures c.cleanKey(key) in SanitiseAlong(c, d, keys)
    ensures SanitiseAlong(c, d, keys)[c.cleanKey(key)] == c.cleanValue(c.cleanKey(key), d[key])
  {
    var front, last := keys[..|keys| - 1], keys[|keys| - 1];
    if c.cleanKey(key) != c.cleanKey(last) {
      assert key in front;
      OwnValue(c, d, front, key);
    }
  }

  lemma SameAlongEveryOrder(c: Cleanser, d: Dict, one: seq<string>, other: seq<string>)
    requires NoConflict(c, d) && Enumerates(one, d) && Enumerates(other, d)
    ensures SanitiseAlong(c, d, one) == SanitiseAlong(c, d, other)
  {
    var r1, r2 := SanitiseAlong(c, d, one), SanitiseAlong(c, d, other);
    forall clean ensures clean in r1 <==> clean in r2
      ensures clean in r1 && clean in r2 ==> r1[clean] == r2[clean]
    {
      if clean in r1 {
        var key := SanitisedFrom(c, d, one, clean);
        OwnValue(c, d, one, key);
        OwnValue(c, d, other, key);
      } else if clean in r2 {
        var key := SanitisedFrom(c, d, other, clean);
        OwnValue(c, d, one, key);
      }
    }
  }

  /** The walk with `last` at its end leaves the value of `last` under its cleaned key. */
  ghost function OrderEnding(d: Dict, last: string): (keys: seq<string>)
    requires last in d
    ensures Enumerates(keys, d) && keys != [] && keys[|keys| - 1] == last
  {
    SomeOrder(d.Keys - {last}) + [last]
  }

  /** Swift walks a dictionary in no fixed order. The sanitised labels do not
      depend on that order if, and only if, no two keys conflict. */
  lemma OrderIrrelevantIffNoConflict(c: Cleanser, d: Dict)
    ensures NoConflict(c, d) <==>
            forall keys :: Enumerates(keys, d) ==> SanitiseAlong(c, d, keys) == Sanitise(c, d)
  {
    if NoConflict(c, d) {
      forall keys | Enumerates(keys, d) ensures SanitiseAlong(c, d, keys) == Sanitise(c, d) {
        SameAlongEveryOrder(c, d, keys, c.order(d));
      }
    } else {
      var a, b :| a in d && b in d && c.cleanKey(a) == c.cleanKey(b)
        && c.cleanValue(c.cleanKey(a), d[a]) != c.cleanValue(c.cleanKey(b), d[b]);
      var endA, endB := OrderEnding(d, a), OrderEnding(d, b);
      assert SanitiseAlong(c, d, endA)[c.cleanKey(a)] != SanitiseAlong(c, d, endB)[c.cleanKey(b)];
    }
  }

  /** Every entry the walk leaves is some cleaned key with a value cleaned for it. */
  lemma {:induction false} SanitisedIsClean(c: Cleanser, d: Dict, keys: seq<string>)
    requires forall key :: key in keys ==> key in d
    requires Idempotent(c)
    ensures forall clean :: clean in SanitiseAlong(c, d, keys) ==>
              c.cleanKey(clean) == clean
              && c.cleanValue(clean, SanitiseAlong(c, d, keys)[clean]) == SanitiseAlong(c, d, keys)[clean]
  {
    if keys != [] {
      SanitisedIsClean(c, d, keys[..|keys| - 1]);
    }
  }

  /** Sanitising twice is sanitising once: what a released play carries is what a
      play delivered at once would have carried. */
  lemma SanitiseTwice(c: Cleanser, d: Dict)
    requires Idempotent(c)
    ensures Sanitise(c, Sanitise(c, d)) == Sanitise(c, d)
  {
    var once := Sanitise(c, d);
    SanitisedIsClean(c, d, c.order(d));
    var twice := Sanitise(c, once);
    assert NoConflict(c, once);
    forall clean ensures clean in once <==> clean in twice
      ensures clean in once ==> clean in twice && once[clean] == twice[clean]
    {
      if clean in once {
        OwnValue(c, once, c.order(once), clean);
      } else if clean in twice {
        var key := SanitisedFrom(c, once, c.order(once), clean);
      }
    }
  }

  lemma SanitiseOptionalTwice(c: Cleanser, labels: Option<Dict>)
    requires Idempotent(c)
    ensures SanitiseOptional(c, SanitiseOptional(c, labels)) == SanitiseOptional(c, labels)
  {
    if labels.Some? { SanitiseTwice(c, labels.value); }
  }

  /** The walk itself: what it builds is the function of the walked order. */
  method SanitiseLabels(c: Cleanser, labels: Dict) returns (sanitised: Dict)
    ensures sanitised == Sanitise(c, labels)
  {
    var keys := c.order(labels);
    sanitised := map[];
    for i := 0 to |keys|
      invariant sanitised == SanitiseAlong(c, labels, keys[..i])
    {
      assert keys[..i + 1][..i] == keys[..i];
      var cleanKey := c.cleanKey(keys[i]);
      sanitised := sanitised[cleanKey := c.cleanValue(cleanKey, labels[keys[i]])];
    }
    assert keys[..|keys|] == keys;
  }

  method SanitiseKeys(c: Cleanser, labels: seq<string>) returns (cleaned: seq<string>)
    ensures cleaned == CleanKeys(c, labels)
  {
    cleaned := [];
    for i := 0 to |labels|
      invariant cleaned == CleanKeys(c, labels[..i])
    {
      assert labels[..i + 1][..i] == labels[..i];
      var clean := c.cleanKey(labels[i]);
      if clean != "" {
        cleaned := cleaned + [clean];
      }
    }
    assert labels[..|labels|] == labels;
  }

  method SanitiseEventLabels(c: Cleanser, labels: Option<Dict>) returns (sanitised: Option<Dict>)
    ensures sanitised == SanitiseOptional(c, labels)
  {
    sanitised := None;
    if labels.Some? {
      var s := SanitiseLabels(c, labels.value);
      sanitised := Some(s);
    }
  }
}
