/** The ordered set of (expiry, identifier) pairs behind the in-memory store, kept as a sorted sequence. */
module ExpiryIndex {
  import opened Common

  datatype Entry = Entry(expiry: Time, id: Id)

  predicate Before(a: Entry, b: Entry) {
    a.expiry < b.expiry || (a.expiry == b.expiry && a.id < b.id)
  }

  ghost predicate Sorted(s: seq<Entry>) {
    forall i, j :: 0 <= i < j < |s| ==> Before(s[i], s[j])
  }

  function Place(s: seq<Entry>, e: Entry): (r: seq<Entry>)
    ensures forall x :: x in r <==> x == e || x in s
    ensures Sorted(s) ==> Sorted(r)
  {
    if s == [] then [e]
    else if s[0] == e then s
    else if Before(e, s[0]) then [e] + s
    else
      var rest := Place(s[1..], e);
      assert s == [s[0]] + s[1..];
      assert Sorted(s) ==> Sorted(s[1..]) && forall x :: x in rest ==> Before(s[0], x);
      [s[0]] + rest
  }

  function Displace(s: seq<Entry>, e: Entry): (r: seq<Entry>)
    requires Sorted(s)
    ensures forall x :: x in r <==> x != e && x in s
    ensures Sorted(r)
  {
    if s == [] then []
    else
      assert s == [s[0]] + s[1..];
      if s[0] == e then s[1..]
      else
        var rest := Displace(s[1..], e);
        assert forall x :: x in rest ==> Before(s[0], x);
        [s[0]] + rest
  }
}
