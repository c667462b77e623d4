/**
 * The ordered, append-only registry of signing identities: each entry binds a
 * stream id to a key.
 */
module Signing {
  import opened Keys

  /** `Signee { streamid, key }`. */
  datatype Signee = Signee(streamId: string, key: Key)

  class Signees {
    var keys: seq<Signee>

    /** `Signees::new`: an empty registry. */
    constructor ()
      ensures keys == []
    {
      keys := [];
    }

    /** `add`: appends one entry at the end; equal stream ids are all kept. */
    method Add(key: Key, streamId: string)
      modifies this
      ensures keys == old(keys) + [Signee(streamId, key)]
    {
      keys := keys + [Signee(streamId, key)];
    }

    /** `add_selfsign`: appends one entry whose stream id is the key's own name. */
    method AddSelfsign(key: Key)
      modifies this
      ensures keys == old(keys) + [Signee(key.Name(), key)]
    {
      var name := match key
        case Ec(k) => k.name
        case Rsa(k) => k.name;
      keys := keys + [Signee(name, key)];
    }

    /** `get`: the entries in insertion order; the registry is not changed. */
    method Get() returns (r: seq<Signee>)
      ensures r == keys
    {
      r := keys;
    }
  }

  /** Entries added one after another come back in that order, duplicates included. */
  method AddInOrder(first: Key, second: Key, streamId: string) returns (r: seq<Signee>)
    ensures |r| == 2 && r[0] == Signee(streamId, first) && r[1] == Signee(streamId, second)
  {
    var s := new Signees();
    s.Add(first, streamId);
    s.Add(second, streamId);
    r := s.Get();
  }
}
