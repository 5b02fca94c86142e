/** The fields of `SheetCache` and the two stretches of `get` that touch them, each run between awaits. */
module SheetTable {
  import opened Text
  import opened StyleText
  import opened SheetFetch
  import opened SheetCache

  /** What a caller finds: an answer, somebody else's request, or its own request to make. */
  datatype Found = Hit(value: Option<Css>) | Join | Claim

  class Table {
    const w: Web
    var done: map<string, Option<Css>>
    var pending: map<string, (nat, nat)>
    var bytes: nat

    constructor (w: Web)
      ensures this.w == w && Contents() == Cache(map[], map[], 0) && Exact()
    {
      this.w := w;
      done, pending, bytes := map[], map[], 0;
    }

    ghost function Contents(): Cache
      reads this
    {
      Cache(done, pending, bytes)
    }

    /** The byte count is what is kept, no pending address is done, and the bound holds. */
    ghost predicate Exact()
      reads this
    {
      bytes == Kept(w, done) <= w.maxBytes && forall u :: u in pending ==> u !in done
    }

    /** The start of `get`. */
    method Begin(url: string, caller: (nat, nat)) returns (found: Found)
      requires Exact()
      modifies this`pending
      ensures Exact()
      ensures found == if url in done then Hit(done[url]) else if url in old(pending) then Join else Claim
      ensures Contents() == Claimed(old(Contents()), url, caller)
    {
      if url in done {
        return Hit(done[url]);
      }
      if url in pending {
        return Join;
      }
      pending := pending[url := caller];
      return Claim;
    }

    /** The end of `get` by the caller that made the request. */
    method Settle(url: string, value: Option<Css>, keep: bool)
      requires Exact() && url in pending
      modifies this
      ensures Exact() && Contents() == Settled(w, old(Contents()), url, value, keep)
      ensures url !in pending && (url in done ==> keep && done[url] == value)
      ensures url in done <==> keep && (value.None? || old(bytes) + w.length(value.value) <= w.maxBytes)
      ensures bytes == old(bytes) + if url in done && value.Some? then w.length(value.value) else 0
      ensures done == if url in done then old(done)[url := value] else old(done)
    {
      pending := Drop(pending, url);
      if keep && (value.None? || bytes + Size(w, value) <= w.maxBytes) {
        KeptWith(w, done, url, value);
        done := done[url := value];
        bytes := bytes + Size(w, value);
      }
    }
  }
}
