/** The option type and the generator of fresh identifiers every component shares. */
module Wrappers {

  datatype Option<+T> = None | Some(value: T) {
    function GetOr(default: T): T {
      if Some? then value else default
    }
  }

  /** `uuid4()`: whatever the generator draws, the identifier it hands out is not in use.
      `hint` is the draw; a clash is resolved by drawing again. */
  function NewId(used: set<nat>, hint: nat): (id: nat)
    ensures hint <= id && id !in used
  {
    if hint in used then NewId(used - {hint}, hint + 1) else hint
  }

  lemma LeastNatExists(s: set<nat>)
    requires s != {}
    ensures exists m :: m in s && forall x :: x in s ==> m <= x
  {
    var m: nat :| m in s;
    var rest := s - {m};
    while rest != {}
      invariant m in s && rest <= s
      invariant forall x :: x in s ==> m <= x || x in rest
      decreases |rest|
    {
      var y :| y in rest;
      if y < m { m := y; }
      rest := rest - {y};
    }
    assert forall x :: x in s ==> m <= x;
  }

  function MinNat(s: set<nat>): (m: nat)
    requires s != {}
    ensures m in s && forall x :: x in s ==> m <= x
  {
    LeastNatExists(s);
    var m :| m in s && forall x :: x in s ==> m <= x;
    m
  }

  /** The rows of an unordered SELECT, taken by ascending identifier. */
  function Ascending(s: set<nat>): (r: seq<nat>)
    ensures forall x :: x in r <==> x in s
    ensures forall i, j :: 0 <= i < j < |r| ==> r[i] < r[j]
  {
    if s == {} then []
    else
      var m := MinNat(s);
      var rest := Ascending(s - {m});
      assert forall i :: 0 <= i < |rest| ==> rest[i] in rest;
      [m] + rest
  }
}
