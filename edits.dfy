/** The list edits behind the CRUD callbacks: each one is the new value the
    page stores with `setClients(prev => ...)` or `setDeadlines(prev => ...)`. */
module Edits {
  import opened Wrappers
  import opened Seqs
  import opened Records
  import opened Buckets

  /** `toggleDeadlineStatus`: the deadlines with that id move one step along
      the status cycle. */
  function ToggleStatus(ds: seq<Deadline>, id: string): (r: seq<Deadline>)
    ensures |r| == |ds|
    ensures forall i :: 0 <= i < |ds| ==> r[i].(status := ds[i].status) == ds[i]
    ensures forall i :: 0 <= i < |ds| && ds[i].id == id ==> r[i].status == NextStatus(ds[i].status)
    ensures forall i :: 0 <= i < |ds| && ds[i].id != id ==> r[i] == ds[i]
  {
    Map(ds, (d: Deadline) => if d.id == id then d.(status := NextStatus(d.status)) else d)
  }

  /** `bulkMarkComplete`: the selected deadlines become complete. */
  function MarkComplete(ds: seq<Deadline>, ids: set<string>): (r: seq<Deadline>)
    ensures |r| == |ds|
    ensures forall i :: 0 <= i < |ds| ==> r[i].(status := ds[i].status) == ds[i]
    ensures forall i :: 0 <= i < |ds| && ds[i].id in ids ==> r[i].status == Complete
    ensures forall i :: 0 <= i < |ds| && ds[i].id !in ids ==> r[i] == ds[i]
  {
    Map(ds, (d: Deadline) => if d.id in ids then d.(status := Complete) else d)
  }

  /** `updateDeadline`: every deadline with the edited one's id is replaced
      by it. */
  function ReplaceDeadline(ds: seq<Deadline>, edited: Deadline): (r: seq<Deadline>)
    ensures |r| == |ds|
    ensures forall i :: 0 <= i < |ds| && ds[i].id == edited.id ==> r[i] == edited
    ensures forall i :: 0 <= i < |ds| && ds[i].id != edited.id ==> r[i] == ds[i]
  {
    Map(ds, (d: Deadline) => if d.id == edited.id then edited else d)
  }

  /** `updateClient`: every client with the edited one's id is replaced by it. */
  function ReplaceClient(cs: seq<Client>, edited: Client): (r: seq<Client>)
    ensures |r| == |cs|
    ensures forall i :: 0 <= i < |cs| && cs[i].id == edited.id ==> r[i] == edited
    ensures forall i :: 0 <= i < |cs| && cs[i].id != edited.id ==> r[i] == cs[i]
  {
    Map(cs, (c: Client) => if c.id == edited.id then edited else c)
  }

  function ClientKept(id: string): Client -> bool
  {
    (c: Client) => c.id != id
  }

  function DeadlineOfOther(id: string): Deadline -> bool
  {
    (d: Deadline) => d.clientId != id
  }

  function DeadlineKept(id: string): Deadline -> bool
  {
    (d: Deadline) => d.id != id
  }

  /** The client list after `deleteClient(id)`: every client without that id,
      each as often as before, in order. */
  function RemoveClient(cs: seq<Client>, id: string): (r: seq<Client>)
    ensures forall c :: c in r <==> c in cs && c.id != id
    ensures forall c :: multiset(r)[c] == if c.id != id then multiset(cs)[c] else 0
    ensures IsSubsequence(r, cs)
  {
    FilterIsSubsequence(cs, ClientKept(id));
    FilterMultiplicity(cs, ClientKept(id));
    Filter(cs, ClientKept(id))
  }

  /** The deadline list after `deleteClient(id)`, the cascade: every deadline
      of another client, each as often as before, in order. */
  function RemoveClientDeadlines(ds: seq<Deadline>, id: string): (r: seq<Deadline>)
    ensures forall d :: d in r <==> d in ds && d.clientId != id
    ensures forall d :: multiset(r)[d] == if d.clientId != id then multiset(ds)[d] else 0
    ensures IsSubsequence(r, ds)
  {
    FilterIsSubsequence(ds, DeadlineOfOther(id));
    FilterMultiplicity(ds, DeadlineOfOther(id));
    Filter(ds, DeadlineOfOther(id))
  }

  /** The deadline list after `deleteDeadline(id)`: every deadline without
      that id, each as often as before, in order; as many fewer as had it. */
  function RemoveDeadline(ds: seq<Deadline>, id: string): (r: seq<Deadline>)
    ensures forall d :: d in r <==> d in ds && d.id != id
    ensures forall d :: multiset(r)[d] == if d.id != id then multiset(ds)[d] else 0
    ensures IsSubsequence(r, ds)
    ensures |r| == |ds| - CountWhere(ds, (d: Deadline) => d.id == id)
  {
    FilterIsSubsequence(ds, DeadlineKept(id));
    FilterMultiplicity(ds, DeadlineKept(id));
    FilterSplitsLength(ds, (d: Deadline) => d.id == id, DeadlineKept(id));
    Filter(ds, DeadlineKept(id))
  }

  // ---------------------------------------------------------------------------
  // Properties

  /** Toggling a deadline three times restores it when its status is valid;
      others are never touched. */
  lemma ToggleThrice(ds: seq<Deadline>, id: string)
    requires forall i :: 0 <= i < |ds| && ds[i].id == id ==> IsStatus(ds[i].status)
    ensures ToggleStatus(ToggleStatus(ToggleStatus(ds, id), id), id) == ds
  {
    var r := ToggleStatus(ToggleStatus(ToggleStatus(ds, id), id), id);
    forall i | 0 <= i < |ds| ensures r[i] == ds[i] {
      if ds[i].id == id {
        NextStatusCycle(ds[i].status);
      }
    }
  }

  /** A toggled deadline with an unknown status becomes todo. */
  lemma ToggleUnknownIsTodo(ds: seq<Deadline>, id: string, i: int)
    requires 0 <= i < |ds| && ds[i].id == id && !IsStatus(ds[i].status)
    ensures ToggleStatus(ds, id)[i] == ds[i].(status := Todo)
  {
  }

  /** Marking the same selection complete twice is marking it once. */
  lemma MarkCompleteIdempotent(ds: seq<Deadline>, ids: set<string>)
    ensures MarkComplete(MarkComplete(ds, ids), ids) == MarkComplete(ds, ids)
  {
  }

  /** Marked deadlines leave every dashboard bucket; the unmarked keep their
      bucket membership. */
  lemma MarkedLeaveBuckets(ds: seq<Deadline>, ids: set<string>, now: int, i: int)
    requires 0 <= i < |ds|
    ensures var r := MarkComplete(ds, ids);
      ds[i].id in ids ==> r[i] !in Overdue(r, now) && r[i] !in Upcoming(r, now) && r[i] !in ThisWeek(r, now)
    ensures var r := MarkComplete(ds, ids);
      ds[i].id !in ids ==>
        && (r[i] in Overdue(r, now) <==> ds[i] in Overdue(ds, now))
        && (r[i] in Upcoming(r, now) <==> ds[i] in Upcoming(ds, now))
        && (r[i] in ThisWeek(r, now) <==> ds[i] in ThisWeek(ds, now))
  {
    var r := MarkComplete(ds, ids);
    BucketMembership(r, now, r[i]);
  }

  /** Replacing with the same edited deadline twice is replacing it once, and
      afterwards the edited deadline is in the list iff its id was. */
  lemma ReplaceDeadlineIdempotent(ds: seq<Deadline>, edited: Deadline)
    ensures ReplaceDeadline(ReplaceDeadline(ds, edited), edited) == ReplaceDeadline(ds, edited)
    ensures (exists i :: 0 <= i < |ds| && ds[i].id == edited.id) <==> edited in ReplaceDeadline(ds, edited)
  {
  }

  /** The deleted client's quick stats become all zero. */
  lemma DeleteClientClearsStats(ds: seq<Deadline>, id: string, now: int)
    ensures ClientStats(RemoveClientDeadlines(ds, id), Some(id), now) == Stats(0, 0, 0, 0)
  {
  }

  // ---------------------------------------------------------------------------
  // Client search (`filteredClients`)

  /** `sub` occurs in `s` starting at index `i`. */
  predicate OccursAt(s: string, sub: string, i: int)
  {
    0 <= i && i + |sub| <= |s| && s[i..i + |sub|] == sub
  }

  /** `s.includes(sub)`. */
  predicate Includes(s: string, sub: string)
  {
    exists i | 0 <= i <= |s| :: OccursAt(s, sub, i)
  }

  function SearchTest(q: string, lower: string -> string): Client -> bool
  {
    (c: Client) => Includes(lower(c.name), q) || Includes(lower(c.company), q) || Includes(lower(c.industry), q)
  }

  /** `filteredClients`: an empty query shows every client; otherwise the
      clients whose name, company or industry contains the lowered query,
      after the same lowering. `lower` stands for `toLowerCase`. */
  function SearchClients(cs: seq<Client>, query: string, lower: string -> string): (r: seq<Client>)
    ensures query == "" ==> r == cs
    ensures query != "" ==> forall c :: c in r <==> c in cs && SearchTest(lower(query), lower)(c)
    ensures query != "" ==> forall c ::
      multiset(r)[c] == if SearchTest(lower(query), lower)(c) then multiset(cs)[c] else 0
    ensures IsSubsequence(r, cs)
  {
    if query == "" then
      FilterKeepsAll(cs, (c: Client) => true);
      FilterIsSubsequence(cs, (c: Client) => true);
      cs
    else
      FilterIsSubsequence(cs, SearchTest(lower(query), lower));
      FilterMultiplicity(cs, SearchTest(lower(query), lower));
      Filter(cs, SearchTest(lower(query), lower))
  }
}
