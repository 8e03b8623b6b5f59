/** The tracker's records (`app/page.tsx` interfaces `Client` and `Deadline`),
    the status cycle, the client lookup and the defaults a new record gets. */
module Records {
  import opened Wrappers
  import opened Seqs

  /** A client. `status` is kept as text: records loaded from storage are not
      checked against `'active' | 'inactive'`. */
  datatype Client = Client(
    id: string, name: string, company: string, email: string, phone: string,
    industry: string, status: string, notes: string, createdAt: string)

  /** A deadline. `dueDate` is a day number of the local calendar (the source
      keeps `YYYY-MM-DD` text); `priority` and `status` are kept as text. */
  datatype Deadline = Deadline(
    id: string, title: string, description: string, clientId: string,
    dueDate: int, priority: string, status: string, createdAt: string)

  const Todo: string := "todo"
  const InProgress: string := "in_progress"
  const Complete: string := "complete"

  predicate IsStatus(s: string)
  {
    s == Todo || s == InProgress || s == Complete
  }

  /** `getNextStatus`: todo -> in_progress -> complete -> todo; anything else
      goes to todo. */
  function NextStatus(current: string): (r: string)
    ensures IsStatus(r)
    ensures current == Todo ==> r == InProgress
    ensures current == InProgress ==> r == Complete
    ensures current == Complete ==> r == Todo
    ensures IsStatus(current) ==> r != current
    ensures !IsStatus(current) ==> r == Todo
  {
    if current == Todo then InProgress
    else if current == InProgress then Complete
    else if current == Complete then Todo
    else Todo
  }

  /** Three steps of the cycle return to any valid status. */
  lemma NextStatusCycle(s: string)
    requires IsStatus(s)
    ensures NextStatus(NextStatus(NextStatus(s))) == s
  {
  }

  /** `clients.find(c => c.id === clientId)`. */
  function FindClient(clients: seq<Client>, id: string): (r: Option<Client>)
    ensures r.None? <==> forall i :: 0 <= i < |clients| ==> clients[i].id != id
    ensures r.Some? ==> (exists i :: 0 <= i < |clients| && clients[i] == r.value &&
                                    clients[i].id == id && forall j :: 0 <= j < i ==> clients[j].id != id)
    decreases |clients|
  {
    if clients == [] then None
    else if clients[0].id == id then Some(clients[0])
    else
      var r := FindClient(clients[1..], id);
      assert r.Some? ==> (exists i :: 1 <= i < |clients| && clients[i] == r.value &&
                                      clients[i].id == id && forall j :: 0 <= j < i ==> clients[j].id != id) by {
        if r.Some? {
          var i :| 0 <= i < |clients[1..]| && clients[1..][i] == r.value &&
            clients[1..][i].id == id && forall j :: 0 <= j < i ==> clients[1..][j].id != id;
          assert forall j :: 0 < j < i + 1 ==> clients[j].id != id by {
            forall j | 0 < j < i + 1 ensures clients[j].id != id { assert clients[j] == clients[1..][j - 1]; }
          }
        }
      }
      r
  }

  const UnknownClient: string := "Unknown"

  /** `getClientName`: the name of the first client with that id, or the
      `'Unknown'` sentinel for a dangling reference. */
  function ClientName(clients: seq<Client>, id: string): (r: string)
    ensures (forall i :: 0 <= i < |clients| ==> clients[i].id != id) ==> r == UnknownClient
    ensures forall i :: (0 <= i < |clients| && clients[i].id == id &&
                         (forall j :: 0 <= j < i ==> clients[j].id != id)) ==> r == clients[i].name
  {
    match FindClient(clients, id)
    case None => UnknownClient
    case Some(c) => c.name
  }

  /** The deadlines that refer to `clientId`, in list order. */
  function DeadlinesOf(ds: seq<Deadline>, clientId: string): (r: seq<Deadline>)
    ensures forall d :: d in r <==> d in ds && d.clientId == clientId
    ensures forall d :: multiset(r)[d] == if d.clientId == clientId then multiset(ds)[d] else 0
    ensures IsSubsequence(r, ds)
  {
    FilterIsSubsequence(ds, (d: Deadline) => d.clientId == clientId);
    FilterMultiplicity(ds, (d: Deadline) => d.clientId == clientId);
    Filter(ds, (d: Deadline) => d.clientId == clientId)
  }

  // ---------------------------------------------------------------------------
  // New records

  /** A JavaScript `value || fallback` on an optional text field: absent and
      empty text both take the fallback. */
  function OrElse(value: Option<string>, fallback: string): string
  {
    if Filled(value) then value.value else fallback
  }

  /** A form field holding non-empty text (truthy in JavaScript). */
  predicate Filled(v: Option<string>)
  {
    v.Some? && v.value != ""
  }

  /** The add-client form (`Partial<Client>`); `None` is an untouched field. */
  datatype ClientForm = ClientForm(
    name: Option<string>, company: Option<string>, email: Option<string>,
    phone: Option<string>, industry: Option<string>, status: Option<string>,
    notes: Option<string>)

  const EmptyClientForm := ClientForm(None, None, None, None, None, None, None)

  /** The client `addClient` appends; `id` and `createdAt` stand for the
      generated UUID and the clock reading. */
  function NewClient(form: ClientForm, id: string, createdAt: string): (c: Client)
    ensures c.id == id && c.createdAt == createdAt
    ensures c.name != "" && c.status != ""
    ensures Filled(form.name) ==> c.name == form.name.value
    ensures Filled(form.company) ==> c.company == form.company.value
    ensures Filled(form.email) ==> c.email == form.email.value
    ensures Filled(form.phone) ==> c.phone == form.phone.value
    ensures Filled(form.industry) ==> c.industry == form.industry.value
    ensures Filled(form.status) ==> c.status == form.status.value
    ensures Filled(form.notes) ==> c.notes == form.notes.value
    ensures !Filled(form.name) ==> c.name == "New Client"
    ensures !Filled(form.company) ==> c.company == ""
    ensures !Filled(form.email) ==> c.email == ""
    ensures !Filled(form.phone) ==> c.phone == ""
    ensures !Filled(form.industry) ==> c.industry == ""
    ensures !Filled(form.status) ==> c.status == "active"
    ensures !Filled(form.notes) ==> c.notes == ""
  {
    Client(id, OrElse(form.name, "New Client"), OrElse(form.company, ""),
      OrElse(form.email, ""), OrElse(form.phone, ""), OrElse(form.industry, ""),
      OrElse(form.status, "active"), OrElse(form.notes, ""), createdAt)
  }

  /** With nothing filled in, the defaults are 'New Client' and 'active'. */
  lemma NewClientFromEmptyForm(id: string, createdAt: string)
    ensures NewClient(EmptyClientForm, id, createdAt) ==
      Client(id, "New Client", "", "", "", "", "active", "", createdAt)
  {
  }

  /** The add-deadline form; `dueDate` is `None` when the date text is absent
      or empty. */
  datatype DeadlineForm = DeadlineForm(
    title: Option<string>, description: Option<string>, clientId: Option<string>,
    dueDate: Option<int>, priority: Option<string>, status: Option<string>)

  const EmptyDeadlineForm := DeadlineForm(None, None, None, None, None, None)

  /** The client id a new deadline gets: the client the dialog was opened for,
      else the form's choice, else the first client's id, else ''. */
  function DefaultClientId(form: DeadlineForm, scopedClientId: Option<string>, clients: seq<Client>): (r: string)
    ensures Filled(scopedClientId) ==> r == scopedClientId.value
    ensures !Filled(scopedClientId) && Filled(form.clientId) ==> r == form.clientId.value
    ensures !Filled(scopedClientId) && !Filled(form.clientId) ==>
      r == (if clients == [] then "" else clients[0].id)
  {
    OrElse(scopedClientId, OrElse(form.clientId, if clients == [] then "" else clients[0].id))
  }

  /** The deadline `addDeadline` appends. `utcToday` is the day number of the
      clock's UTC date (`new Date().toISOString().split('T')[0]`). */
  function NewDeadline(form: DeadlineForm, scopedClientId: Option<string>, clients: seq<Client>,
                       id: string, createdAt: string, utcToday: int): (d: Deadline)
    ensures d.id == id && d.createdAt == createdAt
    ensures d.title != "" && d.priority != "" && d.status != ""
    ensures Filled(form.title) ==> d.title == form.title.value
    ensures Filled(form.description) ==> d.description == form.description.value
    ensures Filled(form.priority) ==> d.priority == form.priority.value
    ensures Filled(form.status) ==> d.status == form.status.value
    ensures !Filled(form.title) ==> d.title == "New Deadline"
    ensures !Filled(form.description) ==> d.description == ""
    ensures !Filled(form.priority) ==> d.priority == "medium"
    ensures !Filled(form.status) ==> d.status == Todo
    ensures d.dueDate == form.dueDate.GetOr(utcToday)
    ensures d.clientId == DefaultClientId(form, scopedClientId, clients)
  {
    Deadline(id, OrElse(form.title, "New Deadline"), OrElse(form.description, ""),
      DefaultClientId(form, scopedClientId, clients), form.dueDate.GetOr(utcToday),
      OrElse(form.priority, "medium"), OrElse(form.status, Todo), createdAt)
  }

  /** With nothing filled in: 'New Deadline', due on the UTC day, medium, todo. */
  lemma NewDeadlineFromEmptyForm(clients: seq<Client>, id: string, createdAt: string, utcToday: int)
    ensures NewDeadline(EmptyDeadlineForm, None, clients, id, createdAt, utcToday) ==
      Deadline(id, "New Deadline", "", if clients == [] then "" else clients[0].id,
               utcToday, "medium", Todo, createdAt)
  {
  }
}
