/**
 Emergency numbers: `phoneOk`, defined identically on the setup and timer
 pages, the filter both pages apply to the entered numbers, and the `tel:`
 link the timer page builds from a number.
 */
module Phone {
  import opened Text

  /** `phoneOk`: at least three characters once white space is removed. */
  predicate PhoneOk(v: string) {
    |StripSpaces(v)| >= 3
  }

  /** A number passes exactly when it holds three characters that are not white space. */
  lemma PhoneOkIff(v: string)
    ensures PhoneOk(v) <==> HasThreeVisible(v)
  {
    ThreeVisibleIff(v);
  }

  /** `list.filter(phoneOk)`. */
  function FilterPhones(list: seq<string>): (r: seq<string>)
    ensures |r| <= |list|
    ensures forall i :: 0 <= i < |r| ==> PhoneOk(r[i])
    ensures forall x :: x in r <==> x in list && PhoneOk(x)
  {
    if |list| == 0 then []
    else (if PhoneOk(list[0]) then [list[0]] else []) + FilterPhones(list[1..])
  }

  /** Filtering keeps order: it distributes over concatenation. */
  lemma {:induction false} FilterPhonesAppend(a: seq<string>, b: seq<string>)
    ensures FilterPhones(a + b) == FilterPhones(a) + FilterPhones(b)
  {
    if |a| == 0 {
      assert a + b == b;
    } else {
      assert (a + b)[0] == a[0];
      assert (a + b)[1..] == a[1..] + b;
      FilterPhonesAppend(a[1..], b);
    }
  }

  /** The filter of three numbers keeps, in input order, exactly those that pass. */
  lemma FilterThree(a: string, b: string, c: string)
    ensures FilterPhones([a, b, c]) ==
      (if PhoneOk(a) then [a] else []) + (if PhoneOk(b) then [b] else []) + (if PhoneOk(c) then [c] else [])
  {
    assert [a] + [b, c] == [a, b, c];
    assert [b] + [c] == [b, c];
    FilterPhonesAppend([a], [b, c]);
    FilterPhonesAppend([b], [c]);
    FilterOne(a);
    FilterOne(b);
    FilterOne(c);
    var fa, fb, fc := FilterPhones([a]), FilterPhones([b]), FilterPhones([c]);
    assert FilterPhones([a, b, c]) == fa + (fb + fc);
    assert fa + (fb + fc) == fa + fb + fc;
  }

  /** The filter of a single number. */
  lemma FilterOne(x: string)
    ensures FilterPhones([x]) == if PhoneOk(x) then [x] else []
  {
    assert [x][1..] == [];
  }

  /** `'tel:' + t.replace(/\s+/g, '')`. */
  function TelHref(t: string): (r: string)
    ensures |r| >= 4 && r[..4] == "tel:" && NoSpace(r[4..])
    ensures r[4..] == StripSpaces(t)
  {
    var r := "tel:" + StripSpaces(t);
    assert r[4..] == StripSpaces(t);
    r
  }
}
