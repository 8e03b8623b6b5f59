/** `buildContext`: the structured view of clients and their deadlines that
    is serialised into every agent request. */
module Context {
  import opened Seqs
  import opened Records

  /** A deadline as the agent sees it. */
  datatype DeadlineSummary = DeadlineSummary(title: string, dueDate: int, priority: string, status: string)

  /** A client as the agent sees it, with its deadlines. */
  datatype ClientSummary = ClientSummary(
    name: string, company: string, status: string, industry: string,
    deadlines: seq<DeadlineSummary>)

  function Summarize(d: Deadline): DeadlineSummary
  {
    DeadlineSummary(d.title, d.dueDate, d.priority, d.status)
  }

  /** One client's entry: its four fields, and a summary of each of its
      deadlines in list order; a summary is listed exactly when some deadline
      of that client has it. */
  function ClientEntry(c: Client, ds: seq<Deadline>): (e: ClientSummary)
    ensures e.name == c.name && e.company == c.company && e.status == c.status && e.industry == c.industry
    ensures |e.deadlines| == |DeadlinesOf(ds, c.id)|
    ensures forall j :: 0 <= j < |e.deadlines| ==> e.deadlines[j] == Summarize(DeadlinesOf(ds, c.id)[j])
    ensures forall s :: s in e.deadlines <==> exists d :: d in ds && d.clientId == c.id && Summarize(d) == s
  {
    var mine := DeadlinesOf(ds, c.id);
    SummariesOfClient(mine, ds, c.id);
    ClientSummary(c.name, c.company, c.status, c.industry, Map(mine, Summarize))
  }

  /** Summarising the deadlines that are exactly a client's gives exactly the
      summaries of that client's deadlines. */
  lemma SummariesOfClient(mine: seq<Deadline>, ds: seq<Deadline>, id: string)
    requires forall d :: d in mine <==> d in ds && d.clientId == id
    ensures forall s :: s in Map(mine, Summarize) <==> exists d :: d in ds && d.clientId == id && Summarize(d) == s
  {
    var m := Map(mine, Summarize);
    forall s | s in m ensures exists d :: d in ds && d.clientId == id && Summarize(d) == s {
      var j :| 0 <= j < |m| && m[j] == s;
      assert mine[j] in ds && mine[j].clientId == id;
    }
    forall d | d in ds && d.clientId == id ensures Summarize(d) in m {
      var j :| 0 <= j < |mine| && mine[j] == d;
      assert m[j] == Summarize(d);
    }
  }

  /** `clientData`: one entry per client, in client order, holding exactly
      that client's deadlines, in list order. */
  function BuildContext(clients: seq<Client>, ds: seq<Deadline>): (r: seq<ClientSummary>)
    ensures |r| == |clients|
    ensures forall i :: 0 <= i < |clients| ==>
      && r[i].name == clients[i].name && r[i].company == clients[i].company
      && r[i].status == clients[i].status && r[i].industry == clients[i].industry
      && |r[i].deadlines| == |DeadlinesOf(ds, clients[i].id)|
      && forall j :: 0 <= j < |r[i].deadlines| ==> r[i].deadlines[j] == Summarize(DeadlinesOf(ds, clients[i].id)[j])
  {
    Map(clients, (c: Client) => ClientEntry(c, ds))
  }

  predicate HasClient(clients: seq<Client>, id: string)
  {
    exists i :: 0 <= i < |clients| && clients[i].id == id
  }

  function LinkedTest(clients: seq<Client>): Deadline -> bool
  {
    (d: Deadline) => HasClient(clients, d.clientId)
  }

  function OwnedBy(clientId: string): Deadline -> bool
  {
    (d: Deadline) => d.clientId == clientId
  }

  function OwnedAndLinked(clients: seq<Client>, clientId: string): Deadline -> bool
  {
    (d: Deadline) => HasClient(clients, d.clientId) && d.clientId == clientId
  }

  /** A deadline whose client id matches no client appears nowhere: dropping
      every such deadline leaves the context as it was. */
  lemma DanglingOmitted(clients: seq<Client>, ds: seq<Deadline>)
    ensures BuildContext(clients, ds) == BuildContext(clients, Filter(ds, LinkedTest(clients)))
  {
    var linked := Filter(ds, LinkedTest(clients));
    forall i | 0 <= i < |clients|
      ensures DeadlinesOf(ds, clients[i].id) == DeadlinesOf(linked, clients[i].id)
    {
      var id := clients[i].id;
      assert DeadlinesOf(linked, id) == Filter(linked, OwnedBy(id));
      FilterTwice(ds, LinkedTest(clients), OwnedBy(id), OwnedAndLinked(clients, id));
      FilterSame(ds, OwnedAndLinked(clients, id), OwnedBy(id));
      assert DeadlinesOf(ds, id) == Filter(ds, OwnedBy(id));
    }
  }

  /** Appending a deadline for a known client adds its summary to the end of
      that client's entries and leaves the other clients' entries alone. */
  lemma AppendedDeadlineListed(clients: seq<Client>, ds: seq<Deadline>, d: Deadline, i: int)
    requires 0 <= i < |clients|
    ensures BuildContext(clients, ds + [d])[i].deadlines ==
      BuildContext(clients, ds)[i].deadlines + (if d.clientId == clients[i].id then [Summarize(d)] else [])
  {
    var c := clients[i];
    var extra := if d.clientId == c.id then [d] else [];
    assert BuildContext(clients, ds + [d])[i] == ClientEntry(c, ds + [d]);
    assert BuildContext(clients, ds)[i] == ClientEntry(c, ds);
    DeadlinesOfAppend(ds, d, c.id);
    MapAppend(DeadlinesOf(ds, c.id), extra, Summarize);
    assert Map(extra, Summarize) == if d.clientId == c.id then [Summarize(d)] else [];
  }

  /** A client's deadlines after an append: the old ones, then the new one
      when it is that client's. */
  lemma DeadlinesOfAppend(ds: seq<Deadline>, d: Deadline, id: string)
    ensures DeadlinesOf(ds + [d], id) == DeadlinesOf(ds, id) + (if d.clientId == id then [d] else [])
  {
    FilterAppend(ds, [d], OwnedBy(id));
    assert DeadlinesOf(ds + [d], id) == Filter(ds + [d], OwnedBy(id));
    assert DeadlinesOf(ds, id) == Filter(ds, OwnedBy(id));
    assert Filter([d], OwnedBy(id)) == if d.clientId == id then [d] else [];
  }
}
