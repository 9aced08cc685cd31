/** `BlacklistCache`: a membership store over the Redis key space. A phone number is blocked when
    the key "blacklist:" + phoneNumber exists; adding stores the value "1" under that key and
    removing deletes it. The key is the raw string: no normalisation of '+', zeros or separators. */
module Blacklist {
  import opened JavaStrings
  import opened Interactions

  const Prefix := "blacklist:"
  const Marker := "1"

  /** The Redis key for a phone number. */
  function Key(phoneNumber: JString): string {
    Concat(Prefix, phoneNumber)
  }

  /** `isBlacklisted` against a given key space. */
  predicate Blacklisted(store: map<string, string>, phoneNumber: JString) {
    Key(phoneNumber) in store
  }

  /** The key space after `addToBlacklist(phoneNumber)`. */
  function Added(store: map<string, string>, phoneNumber: JString): (s: map<string, string>)
    ensures Blacklisted(s, phoneNumber) && s[Key(phoneNumber)] == Marker
    ensures s.Keys == store.Keys + {Key(phoneNumber)}
    ensures forall k :: k in store && k != Key(phoneNumber) ==> s[k] == store[k]
  {
    store[Key(phoneNumber) := Marker]
  }

  /** The key space after `removeFromBlacklist(phoneNumber)`. */
  function Removed(store: map<string, string>, phoneNumber: JString): (s: map<string, string>)
    ensures !Blacklisted(s, phoneNumber)
    ensures s.Keys == store.Keys - {Key(phoneNumber)}
    ensures forall k :: k in s ==> s[k] == store[k]
  {
    store - {Key(phoneNumber)}
  }

  /** Two phone numbers share a key exactly when they render to the same text; in particular
      distinct non-null numbers never share one. */
  lemma KeyInjective(p: JString, q: JString)
    ensures Key(p) == Key(q) <==> Render(p) == Render(q)
  {
    ConcatInjective(Prefix, p, q);
  }

  /** Adding `p` leaves the answer for every number with a different text unchanged. */
  lemma AddLeavesOthers(store: map<string, string>, p: JString, q: JString)
    requires Render(q) != Render(p)
    ensures Blacklisted(Added(store, p), q) == Blacklisted(store, q)
  {
    KeyInjective(p, q);
  }

  /** Removing `p` leaves the answer for every number with a different text unchanged. */
  lemma RemoveLeavesOthers(store: map<string, string>, p: JString, q: JString)
    requires Render(q) != Render(p)
    ensures Blacklisted(Removed(store, p), q) == Blacklisted(store, q)
  {
    KeyInjective(p, q);
  }

  /** Adding twice is adding once. */
  lemma AddIdempotent(store: map<string, string>, p: JString)
    ensures Added(Added(store, p), p) == Added(store, p)
  {
  }

  /** Removing a number that is not blocked changes nothing. */
  lemma RemoveAbsent(store: map<string, string>, p: JString)
    requires !Blacklisted(store, p)
    ensures Removed(store, p) == store
  {
  }

  /** Add and remove undo each other on a number that was not blocked. */
  lemma RemoveUndoesAdd(store: map<string, string>, p: JString)
    requires !Blacklisted(store, p)
    ensures Removed(Added(store, p), p) == store
  {
  }

  /** No normalisation: blocking "+1234567890" does not block "1234567890". */
  lemma PlusSignIsSignificant(store: map<string, string>)
    requires !Blacklisted(store, Some("1234567890"))
    ensures !Blacklisted(Added(store, Some("+1234567890")), Some("1234567890"))
  {
    AddLeavesOthers(store, Some("+1234567890"), Some("1234567890"));
  }

  /** A null phone number and the literal "null" share the key "blacklist:null". */
  lemma NullSharesKeyWithLiteral(store: map<string, string>)
    ensures Blacklisted(Added(store, None), Some("null"))
  {
    NullRendersAsLiteral(Prefix);
  }

  /** The cache service. `store` is the Redis key space it reads and writes; every Redis command
      it issues is also recorded in the shared journal. */
  class BlacklistCache {
    var store: map<string, string>
    const journal: Journal

    constructor (store: map<string, string>, journal: Journal)
      ensures this.store == store && this.journal == journal
    {
      this.store := store;
      this.journal := journal;
    }

    /** One `hasKey` lookup; the key space is left as it was. */
    method IsBlacklisted(phoneNumber: JString) returns (blocked: bool)
      modifies journal
      ensures blocked <==> Key(phoneNumber) in store
      ensures store == old(store)
      ensures journal.log == old(journal.log) + [HasKey(Key(phoneNumber))]
    {
      blocked := Key(phoneNumber) in store;
      journal.log := journal.log + [HasKey(Key(phoneNumber))];
    }

    method AddToBlacklist(phoneNumber: JString)
      modifies this, journal
      ensures store == Added(old(store), phoneNumber)
      ensures journal.log == old(journal.log) + [SetKey(Key(phoneNumber), Marker)]
    {
      store := store[Key(phoneNumber) := Marker];
      journal.log := journal.log + [SetKey(Key(phoneNumber), Marker)];
    }

    method RemoveFromBlacklist(phoneNumber: JString)
      modifies this, journal
      ensures store == Removed(old(store), phoneNumber)
      ensures journal.log == old(journal.log) + [DeleteKey(Key(phoneNumber))]
    {
      store := store - {Key(phoneNumber)};
      journal.log := journal.log + [DeleteKey(Key(phoneNumber))];
    }
  }
}
