/**
 * The front end's `Mailbox`: a dictionary from address to a list of
 * messages. Placing a message creates the address's list on first use;
 * consuming returns the list and leaves an empty one behind. An address
 * that was never written answers `undefined`, modelled as `None`.
 * Message payloads are the type parameter `M`.
 */
module Mailboxes {
  import opened Wrappers

  type Inbox<M> = map<string, seq<M>>

  /** `placeMessage`: append to the address's list, creating it first if it is missing. */
  function PlaceOf<M>(d: Inbox<M>, address: string, content: M): Inbox<M>
  {
    d[address := (if address in d then d[address] else []) + [content]]
  }

  /** `consumeMessages`: the address's list, if any, and the dictionary with that list emptied. */
  function ConsumeOf<M>(d: Inbox<M>, address: string): (Option<seq<M>>, Inbox<M>)
  {
    (if address in d then Some(d[address]) else None, d[address := []])
  }

  /** Several placements at one address, in order. */
  function PlaceAllOf<M>(d: Inbox<M>, address: string, contents: seq<M>): Inbox<M>
    decreases |contents|
  {
    if contents == [] then d else PlaceAllOf(PlaceOf(d, address, contents[0]), address, contents[1..])
  }

  /**
   * Placing a run of messages at an address appends them, in placement
   * order, to what the address already held, and touches no other address.
   */
  lemma {:induction false} PlaceAllAppends<M>(d: Inbox<M>, address: string, contents: seq<M>)
    ensures address in PlaceAllOf(d, address, contents) || contents == []
    ensures PlaceAllOf(d, address, contents).Keys == d.Keys + (if contents == [] then {} else {address})
    ensures contents != [] ==>
              PlaceAllOf(d, address, contents)[address] == (if address in d then d[address] else []) + contents
    ensures forall other :: other != address && other in d ==> PlaceAllOf(d, address, contents)[other] == d[other]
    decreases |contents|
  {
    if contents != [] {
      var d1 := PlaceOf(d, address, contents[0]);
      PlaceAllAppends(d1, address, contents[1..]);
      if contents[1..] == [] {
        assert contents == [contents[0]];
      } else {
        assert (if address in d then d[address] else []) + [contents[0]] + contents[1..] ==
               (if address in d then d[address] else []) + contents;
      }
    }
  }

  /** Consuming after placements at a fresh address returns exactly those messages, in order. */
  lemma ConsumeReturnsPlacementOrder<M>(d: Inbox<M>, address: string, contents: seq<M>)
    requires address !in d && contents != []
    ensures ConsumeOf(PlaceAllOf(d, address, contents), address).0 == Some(contents)
  {
    PlaceAllAppends(d, address, contents);
    assert [] + contents == contents;
  }

  /**
   * A consume empties the address: a second consume returns an empty list,
   * not `undefined`; and an address never written returns `undefined`.
   */
  lemma SecondConsumeIsEmpty<M>(d: Inbox<M>, address: string)
    ensures ConsumeOf(ConsumeOf(d, address).1, address).0 == Some([])
    ensures address !in d <==> ConsumeOf(d, address).0 == None
  {
  }

  /** Addresses are independent: placing or consuming at one leaves what another returns unchanged. */
  lemma AddressesIndependent<M>(d: Inbox<M>, a: string, b: string, content: M)
    requires a != b
    ensures ConsumeOf(PlaceOf(d, a, content), b).0 == ConsumeOf(d, b).0
    ensures ConsumeOf(ConsumeOf(d, a).1, b).0 == ConsumeOf(d, b).0
  {
  }

  class Mailbox<M> {
    var dict: Inbox<M>

    /** The singleton starts empty; the lazy `getInstance` wrapper is not modelled. */
    constructor ()
      ensures dict == map[]
    {
      dict := map[];
    }

    method PlaceMessage(address: string, content: M)
      modifies this
      ensures dict == PlaceOf(old(dict), address, content)
    {
      if address !in dict {
        dict := dict[address := []];
      }
      dict := dict[address := dict[address] + [content]];
    }

    method ConsumeMessages(address: string) returns (inbox: Option<seq<M>>)
      modifies this
      ensures inbox == ConsumeOf(old(dict), address).0 && dict == ConsumeOf(old(dict), address).1
    {
      inbox := if address in dict then Some(dict[address]) else None;
      dict := dict[address := []];
    }
  }

  /** Two messages to one address: the first consume gets both, in order, the second none. */
  method ConsumeTwice<M>(a: string, c: string, x: M, y: M)
    returns (first: Option<seq<M>>, again: Option<seq<M>>, never: Option<seq<M>>)
    requires a != c
    ensures first == Some([x, y]) && again == Some([]) && never == None
  {
    var box := new Mailbox<M>();
    box.PlaceMessage(a, x);
    assert [] + [x] == [x] && [x] + [y] == [x, y];
    assert box.dict == map[a := [x]];
    box.PlaceMessage(a, y);
    assert box.dict == map[a := [x, y]];
    first := box.ConsumeMessages(a);
    again := box.ConsumeMessages(a);
    never := box.ConsumeMessages(c);
  }
}
