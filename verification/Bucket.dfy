/** The audio bucket, as far as listing and deleting objects goes. */
module Bucket {
  /** How one remote call goes: it works, it fails, or it takes effect and fails all the same. A crash before or after
      the call looks like one of the two failures. */
  datatype Call = Fine | Failed | FailedLate

  predicate Prefixed(name: string, prefix: string) {
    prefix <= name
  }

  class Bucket {
    var names: set<string>

    constructor ()
      ensures names == {}
    {
      names := {};
    }

    /** The objects under a prefix, in some order. */
    method ListBlobs(prefix: string) returns (listing: seq<string>)
      ensures forall name :: name in listing <==> name in names && Prefixed(name, prefix)
      ensures forall i, j | 0 <= i < j < |listing| :: listing[i] != listing[j]
    {
      listing := [];
      var rest := set name | name in names && Prefixed(name, prefix);
      while rest != {}
        invariant forall name :: name in names && Prefixed(name, prefix) <==> name in listing || name in rest
        invariant forall name | name in listing :: name !in rest
        invariant forall i, j | 0 <= i < j < |listing| :: listing[i] != listing[j]
        decreases rest
      {
        var name :| name in rest;
        listing, rest := listing + [name], rest - {name};
      }
    }

    method Delete(name: string, call: Call) returns (ok: bool)
      modifies this
      ensures ok == call.Fine? && names == if call.Failed? then old(names) else old(names) - {name}
    {
      if !call.Failed? {
        names := names - {name};
      }
      ok := call.Fine?;
    }
  }
}
