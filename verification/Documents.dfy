/**
 * The project document registry (war_room_documents.py): every document has a chain of versions, the last of which is
 * current; a registration may name the version it expects to follow.
 */
module Documents {
  import opened Wrappers

  datatype Document = Document(
    project: string, title: string, category: string, active: bool, current: string, createdBy: string,
    createdAt: int, updatedAt: int)

  datatype Version = Version(
    document: string, number: int, uri: string, sha: string, task: Option<string>, agent: Option<string>,
    summary: string, createdAt: int)

  datatype Link = Link(document: string, task: string, relation: string)

  /** `projects` tells of each project whether it is archived, `tasks` which project a task belongs to. */
  datatype Tables = Tables(
    projects: map<string, bool>,
    tasks: map<string, string>,
    documents: map<string, Document>,
    versions: map<string, Version>,
    links: set<Link>)

  /**
   * A registration after path, title, category and relation were checked (`valid`) and the file was hashed.
   * `freshDocument` and `freshVersion` are the generated ids.
   */
  datatype Request = Request(
    project: string, valid: bool, title: string, uri: string, sha: string, category: string, relation: string,
    summary: string, createdBy: string, task: Option<string>, agent: Option<string>,
    document: Option<string>, expected: Option<int>, now: int,
    freshDocument: string, freshVersion: string)

  datatype Receipt = Receipt(document: string, version: string, number: int, changed: bool)

  datatype Refusal = NoProject | Archived | Invalid | NoDocument | Conflict | WrongTask | IdTaken

  /** The document's current version is this path. */
  predicate IsAt(s: Tables, d: string, project: string, uri: string) {
    && d in s.documents && s.documents[d].project == project && s.documents[d].active
    && s.documents[d].current in s.versions && s.versions[s.documents[d].current].uri == uri
  }

  predicate IsLatestAt(s: Tables, d: string, project: string, uri: string) {
    && IsAt(s, d, project, uri)
    && forall e :: e in s.documents && IsAt(s, e, project, uri) ==>
         s.documents[e].updatedAt <= s.documents[d].updatedAt
  }

  predicate Named(q: Request) { q.document.Some? && q.document.value != "" }

  predicate StandsAt(s: Tables, project: string, uri: string) {
    exists d :: d in s.documents && IsAt(s, d, project, uri)
  }

  /**
   * May the look-up of a request that names no document return `chosen`? Whenever documents stand at the path it
   * returns one of the latest, any of them when several are equally recent.
   */
  predicate LooksUp(s: Tables, q: Request, chosen: string) {
    !Named(q) && StandsAt(s, q.project, q.uri) ==> IsLatestAt(s, chosen, q.project, q.uri)
  }

  /** The document the request is about, if there is one. */
  function Existing(s: Tables, q: Request, chosen: string): Option<string> {
    if Named(q) then
      if q.document.value in s.documents && s.documents[q.document.value].project == q.project then q.document else None
    else if IsLatestAt(s, chosen, q.project, q.uri) then Some(chosen)
    else None
  }

  function CurrentNumber(s: Tables, d: string): int
    requires d in s.documents
  {
    if s.documents[d].current in s.versions then s.versions[s.documents[d].current].number else 0
  }

  predicate SameContent(s: Tables, d: string, q: Request)
    requires d in s.documents
  {
    && s.documents[d].current in s.versions
    && s.versions[s.documents[d].current].sha == q.sha && s.versions[s.documents[d].current].uri == q.uri
  }

  function Cut(summary: string): string { if |summary| <= 4096 then summary else summary[..4096] }

  function NewVersion(q: Request, document: string, number: int): Version {
    Version(document, number, q.uri, q.sha, q.task, q.agent, Cut(q.summary), q.now)
  }

  function FirstRow(q: Request): Document {
    Document(q.project, q.title, q.category, true, q.freshVersion, q.createdBy, q.now, q.now)
  }

  /** The rows and the receipt before the task link is made. */
  function Placed(s: Tables, q: Request, chosen: string): Result<(Tables, Receipt), Refusal> {
    match Existing(s, q, chosen)
    case Some(d) =>
      var number := CurrentNumber(s, d);
      if q.expected.Some? && q.expected.value != number then Failure(Conflict)
      else if SameContent(s, d, q) then Success((s, Receipt(d, s.documents[d].current, number, false)))
      else if q.freshVersion in s.versions || NumberTaken(s, d, number + 1) then Failure(IdTaken)
      else
        Success((s.(versions := s.versions[q.freshVersion := NewVersion(q, d, number + 1)],
               documents := s.documents[d := s.documents[d].(title := q.title, category := q.category,
                                                             current := q.freshVersion, updatedAt := q.now)]),
            Receipt(d, q.freshVersion, number + 1, true)))
    case None =>
      if Named(q) then Failure(NoDocument)
      else if q.expected.Some? && q.expected.value != 0 then Failure(Conflict)
      else if q.freshDocument in s.documents || q.freshVersion in s.versions || NumberTaken(s, q.freshDocument, 1)
      then Failure(IdTaken)
      else
        Success((s.(documents := s.documents[q.freshDocument := FirstRow(q)],
               versions := s.versions[q.freshVersion := NewVersion(q, q.freshDocument, 1)]),
            Receipt(q.freshDocument, q.freshVersion, 1, true)))
  }

  /** UNIQUE(document_id, version) */
  predicate NumberTaken(s: Tables, d: string, number: int) {
    exists v :: v in s.versions && s.versions[v].document == d && s.versions[v].number == number
  }

  predicate HasTask(q: Request) { q.task.Some? && q.task.value != "" }

  /** One registration, as one transaction, when the look-up returns `chosen`. */
  function Register(s: Tables, q: Request, chosen: string): Result<(Tables, Receipt), Refusal> {
    if q.project !in s.projects then Failure(NoProject)
    else if s.projects[q.project] then Failure(Archived)
    else if !q.valid then Failure(Invalid)
    else
      match Placed(s, q, chosen)
      case Failure(e) => Failure(e)
      case Success((n, receipt)) =>
        if !HasTask(q) then Success((n, receipt))
        else if q.task.value !in s.tasks || s.tasks[q.task.value] != q.project then Failure(WrongTask)
        else Success((n.(links := n.links + {Link(receipt.document, q.task.value, q.relation)}), receipt))
  }

  // ----- what a registration asks and does, row by row -----------------------------------------------

  /** The document holds this content: its current version is this path with this digest. */
  ghost predicate HoldsContent(s: Tables, d: string, uri: string, sha: string) {
    && d in s.documents && s.documents[d].current in s.versions
    && s.versions[s.documents[d].current].uri == uri && s.versions[s.documents[d].current].sha == sha
  }

  /** An active document of the project whose current version is this path. */
  ghost predicate StandsHere(s: Tables, d: string, project: string, uri: string) {
    && d in s.documents && s.documents[d].project == project && s.documents[d].active
    && s.documents[d].current in s.versions && s.versions[s.documents[d].current].uri == uri
  }

  ghost predicate NamesNone(q: Request) { q.document == None || q.document == Some("") }

  /** The document a request is about: the one it names, or one of the most recent at its path. */
  ghost predicate IsHolder(s: Tables, q: Request, d: string) {
    if NamesNone(q) then
      && StandsHere(s, d, q.project, q.uri)
      && forall e :: StandsHere(s, e, q.project, q.uri) ==> s.documents[e].updatedAt <= s.documents[d].updatedAt
    else q.document == Some(d) && d in s.documents && s.documents[d].project == q.project
  }

  /** The holder that was found, or none because there is none. */
  ghost predicate Finds(s: Tables, q: Request, holder: Option<string>) {
    if holder.Some? then IsHolder(s, q, holder.value) else forall d :: !IsHolder(s, q, d)
  }

  /** The number of the holder's current version, 0 where there is none. */
  ghost function NumberAt(s: Tables, holder: Option<string>): int {
    if holder.Some? && holder.value in s.documents && s.documents[holder.value].current in s.versions
    then s.versions[s.documents[holder.value].current].number else 0
  }

  ghost predicate Expects(s: Tables, q: Request, holder: Option<string>) {
    q.expected.Some? ==> q.expected.value == NumberAt(s, holder)
  }

  ghost predicate TaskFits(s: Tables, q: Request) {
    q.task == None || q.task == Some("") || (q.task.value in s.tasks && s.tasks[q.task.value] == q.project)
  }

  /** The holder already has what the request brings. */
  ghost predicate IsRepeat(s: Tables, q: Request, holder: Option<string>) {
    holder.Some? && HoldsContent(s, holder.value, q.uri, q.sha)
  }

  /** The document that gets the version: the holder, or the new one. */
  ghost function Target(q: Request, holder: Option<string>): string {
    if holder.Some? then holder.value else q.freshDocument
  }

  /** No generated id and no version number is in use already. */
  ghost predicate IdsFree(s: Tables, q: Request, holder: Option<string>) {
    && q.freshVersion !in s.versions && (holder == None ==> q.freshDocument !in s.documents)
    && forall v :: v in s.versions ==>
         !(s.versions[v].document == Target(q, holder) && s.versions[v].number == NumberAt(s, holder) + 1)
  }

  /** The new version: the request's content and origin under the next number. */
  ghost predicate IsNext(s: Tables, v: Version, q: Request, holder: Option<string>) {
    && v.document == Target(q, holder) && v.number == NumberAt(s, holder) + 1 && v.uri == q.uri && v.sha == q.sha
    && v.task == q.task && v.agent == q.agent && v.createdAt == q.now
    && v.summary <= q.summary && |v.summary| == if |q.summary| > 4096 then 4096 else |q.summary|
  }

  /** The document's row: a new one in full, the holder's with the request's title and category, both current. */
  ghost predicate IsMoved(s: Tables, d: Document, q: Request, holder: Option<string>) {
    && d.title == q.title && d.category == q.category && d.current == q.freshVersion && d.updatedAt == q.now
    && d.project == q.project
    && if holder.Some? then
         && holder.value in s.documents && d.active == s.documents[holder.value].active
         && d.createdBy == s.documents[holder.value].createdBy && d.createdAt == s.documents[holder.value].createdAt
       else d.active && d.createdBy == q.createdBy && d.createdAt == q.now
  }

  /** The version and document rows of a registration that is no repeat. */
  ghost predicate NewRows(s: Tables, q: Request, holder: Option<string>, n: Tables, r: Receipt) {
    && r == Receipt(Target(q, holder), q.freshVersion, NumberAt(s, holder) + 1, true)
    && r.version in n.versions && IsNext(s, n.versions[r.version], q, holder)
    && n.versions == s.versions[r.version := n.versions[r.version]]
    && r.document in n.documents && IsMoved(s, n.documents[r.document], q, holder)
    && n.documents == s.documents[r.document := n.documents[r.document]]
  }

  /** A registration that goes through, and the tables afterwards. */
  ghost predicate Registered(s: Tables, q: Request, holder: Option<string>, n: Tables, r: Receipt) {
    && q.project in s.projects && !s.projects[q.project] && q.valid && (holder.Some? || NamesNone(q))
    && Expects(s, q, holder) && TaskFits(s, q)
    && n == s.(documents := n.documents, versions := n.versions, links := n.links)
    && n.links == (if q.task == None || q.task == Some("") then s.links
                   else s.links + {Link(r.document, q.task.value, q.relation)})
    && r.document == Target(q, holder)
    && if IsRepeat(s, q, holder) then
         && n.documents == s.documents && n.versions == s.versions
         && !r.changed && r.number == NumberAt(s, holder)
         && r.document in s.documents && r.version == s.documents[r.document].current
       else
         IdsFree(s, q, holder) && NewRows(s, q, holder, n, r)
  }

  /** Why a registration is refused; the checks go in this order. */
  ghost predicate Declined(s: Tables, q: Request, holder: Option<string>, e: Refusal) {
    match e
    case NoProject => q.project !in s.projects
    case Archived => q.project in s.projects && s.projects[q.project]
    case _ =>
      && q.project in s.projects && !s.projects[q.project]
      && match e
         case Invalid => !q.valid
         case NoDocument => q.valid && holder == None && !NamesNone(q)
         case _ =>
           && q.valid && (holder.Some? || NamesNone(q))
           && match e
              case Conflict => !Expects(s, q, holder)
              case IdTaken => Expects(s, q, holder) && !IsRepeat(s, q, holder) && !IdsFree(s, q, holder)
              case WrongTask =>
                Expects(s, q, holder) && (IsRepeat(s, q, holder) || IdsFree(s, q, holder)) && !TaskFits(s, q)
              case _ => false
  }

  /** The look-up finds a holder whenever there is one. */
  lemma ExistingIsHolder(s: Tables, q: Request, chosen: string)
    requires LooksUp(s, q, chosen)
    ensures Finds(s, q, Existing(s, q, chosen))
  {
    forall d ensures StandsHere(s, d, q.project, q.uri) <==> IsAt(s, d, q.project, q.uri) {}
  }

  lemma TakenIff(s: Tables, q: Request, holder: Option<string>)
    ensures IdsFree(s, q, holder) <==>
            && q.freshVersion !in s.versions && (holder == None ==> q.freshDocument !in s.documents)
            && !NumberTaken(s, Target(q, holder), NumberAt(s, holder) + 1)
  {
  }

  lemma PlacingMeans(s: Tables, q: Request, chosen: string, holder: Option<string>,
                     p: Result<(Tables, Receipt), Refusal>)
    requires holder == Existing(s, q, chosen) && p == Placed(s, q, chosen)
    ensures p.Failure? ==>
              || (p.error == NoDocument && holder == None && !NamesNone(q))
              || ((holder.Some? || NamesNone(q))
                  && ((p.error == Conflict && !Expects(s, q, holder))
                      || (p.error == IdTaken && Expects(s, q, holder) && !IsRepeat(s, q, holder)
                          && !IdsFree(s, q, holder))))
    ensures p.Success? ==>
              var (n, r) := p.value;
              && (holder.Some? || NamesNone(q)) && Expects(s, q, holder)
              && n == s.(documents := n.documents, versions := n.versions)
              && if IsRepeat(s, q, holder) then
                   && n == s && r.document == Target(q, holder)
                   && r.document in s.documents
                   && r == Receipt(r.document, s.documents[r.document].current, NumberAt(s, holder), false)
                 else IdsFree(s, q, holder) && NewRows(s, q, holder, n, r)
  {
    TakenIff(s, q, holder);
  }

  /** A registration goes through or is refused by exactly these conditions. */
  lemma RegisterMeans(s: Tables, q: Request, chosen: string, out: Result<(Tables, Receipt), Refusal>)
    requires out == Register(s, q, chosen)
    ensures out.Success? ==> Registered(s, q, Existing(s, q, chosen), out.value.0, out.value.1)
    ensures out.Failure? ==> Declined(s, q, Existing(s, q, chosen), out.error)
  {
    PlacingMeans(s, q, chosen, Existing(s, q, chosen), Placed(s, q, chosen));
  }

  // ----- the registry as it runs -----------------------------------------------------------------

  class Registry {
    const projects: map<string, bool>
    const tasks: map<string, string>
    var documents: map<string, Document>
    var versions: map<string, Version>
    var links: set<Link>

    function State(): Tables
      reads this
    {
      Tables(projects, tasks, documents, versions, links)
    }

    constructor (p: map<string, bool>, t: map<string, string>)
      ensures State() == Tables(p, t, map[], map[], {})
    {
      projects, tasks, documents, versions, links := p, t, map[], map[], {};
    }

    /** The row that the look-up by path returns. */
    method LookUp(project: string, uri: string) returns (d: Option<string>)
      ensures d.Some? <==> StandsAt(State(), project, uri)
      ensures d.Some? ==> IsLatestAt(State(), d.value, project, uri)
    {
      if exists e :: e in documents && IsAt(State(), e, project, uri) {
        LatestExists(State(), project, uri);
        var latest :| latest in documents && IsLatestAt(State(), latest, project, uri);
        return Some(latest);
      }
      return None;
    }

    /** The document and version rows; a refusal takes back what it wrote. */
    method Place(q: Request, existing: Option<string>, ghost chosen: string) returns (r: Result<Receipt, Refusal>)
      requires existing == Existing(State(), q, chosen) && (Named(q) ==> existing.Some?)
      modifies this`documents, this`versions
      ensures match Placed(old(State()), q, chosen)
              case Success((n, receipt)) => r == Success(receipt) && State() == n
              case Failure(e) => r == Failure(e) && State() == old(State())
    {
      if existing.Some? {
        var d := existing.value;
        var number := CurrentNumber(State(), d);
        if q.expected.Some? && q.expected.value != number { return Failure(Conflict); }
        if SameContent(State(), d, q) { return Success(Receipt(d, documents[d].current, number, false)); }
        if q.freshVersion in versions || NumberTaken(State(), d, number + 1) { return Failure(IdTaken); }
        versions := versions[q.freshVersion := NewVersion(q, d, number + 1)];
        documents := documents[d := documents[d].(title := q.title, category := q.category,
                                                  current := q.freshVersion, updatedAt := q.now)];
        return Success(Receipt(d, q.freshVersion, number + 1, true));
      }
      if q.expected.Some? && q.expected.value != 0 { return Failure(Conflict); }
      if q.freshDocument in documents { return Failure(IdTaken); }
      var before := documents;
      documents := documents[q.freshDocument := FirstRow(q)];
      if q.freshVersion in versions || NumberTaken(State(), q.freshDocument, 1) {
        documents := before;
        return Failure(IdTaken);
      }
      versions := versions[q.freshVersion := NewVersion(q, q.freshDocument, 1)];
      return Success(Receipt(q.freshDocument, q.freshVersion, 1, true));
    }

    /** After a refusal nothing that was written in between remains; every document stays a chain. */
    method RegisterDocument(q: Request)
      returns (r: Result<Receipt, Refusal>, ghost chosen: string, ghost holder: Option<string>)
      modifies this
      ensures Finds(old(State()), q, holder)
      ensures r.Success? ==> Registered(old(State()), q, holder, State(), r.value)
      ensures r.Failure? ==> Declined(old(State()), q, holder, r.error) && State() == old(State())
      ensures LooksUp(old(State()), q, chosen)
      ensures match Register(old(State()), q, chosen)
              case Success((n, receipt)) => r == Success(receipt) && State() == n
              case Failure(e) => r == Failure(e) && State() == old(State())
      ensures old(Chained(State())) ==> Chained(State())
      ensures r.Success? ==>
                && r.value.document in documents && documents[r.value.document].current == r.value.version
                && SameContent(State(), r.value.document, q)
                && CurrentNumber(State(), r.value.document) == r.value.number
    {
      ghost var s := State();
      var row := LookUp(q.project, q.uri);
      chosen := if row.Some? then row.value else "";
      holder := Existing(s, q, chosen);
      ExistingIsHolder(s, q, chosen);
      RegisterMeans(s, q, chosen, Register(s, q, chosen));
      if q.project !in projects { return Failure(NoProject), chosen, holder; }
      if projects[q.project] { return Failure(Archived), chosen, holder; }
      if !q.valid { return Failure(Invalid), chosen, holder; }
      var documentsBefore, versionsBefore := documents, versions;
      var existing := row;
      if Named(q) {
        var d := q.document.value;
        if d !in documents || documents[d].project != q.project { return Failure(NoDocument), chosen, holder; }
        existing := Some(d);
      }
      r := Place(q, existing, chosen);
      if r.Failure? { return r, chosen, holder; }
      if HasTask(q) {
        if q.task.value !in tasks || tasks[q.task.value] != q.project {
          documents, versions := documentsBefore, versionsBefore;
          return Failure(WrongTask), chosen, holder;
        }
        links := links + {Link(r.value.document, q.task.value, q.relation)};
      }
      RegisteredStands(s, q, chosen, State(), r.value);
    }
  }

  lemma RegisteredStands(s: Tables, q: Request, chosen: string, n: Tables, r: Receipt)
    requires Register(s, q, chosen) == Success((n, r))
    ensures Chained(s) ==> Chained(n)
    ensures r.document in n.documents && n.documents[r.document].current == r.version
    ensures SameContent(n, r.document, q) && CurrentNumber(n, r.document) == r.number
  {
    RegisterEffect(s, q, chosen, n, r);
    if Chained(s) { EffectKeepsChains(s, q, n, r); }
  }

  lemma LatestExists(s: Tables, project: string, uri: string)
    requires StandsAt(s, project, uri)
    ensures exists d :: d in s.documents && IsLatestAt(s, d, project, uri)
  {
    var there := set d | d in s.documents && IsAt(s, d, project, uri);
    var first :| first in s.documents && IsAt(s, first, project, uri);
    assert first in there;
    var d := MostRecent(s.documents, there);
    assert IsLatestAt(s, d, project, uri);
  }

  lemma {:induction false} MostRecent(documents: map<string, Document>, among: set<string>) returns (d: string)
    requires among <= documents.Keys && among != {}
    ensures d in among && forall e :: e in among ==> documents[e].updatedAt <= documents[d].updatedAt
  {
    d :| d in among;
    var rest := among - {d};
    if rest != {} {
      var e := MostRecent(documents, rest);
      if documents[d].updatedAt < documents[e].updatedAt { d := e; }
    }
  }

  // ----- what a registration does --------------------------------------------------------------------

  /** The row a new version adds, and the one document it moves. */
  ghost predicate Adds(s: Tables, n: Tables, q: Request, r: Receipt) {
    && r.version !in s.versions && n.versions == s.versions[r.version := NewVersion(q, r.document, r.number)]
    && n.documents.Keys == s.documents.Keys + {r.document}
    && (forall e :: e in s.documents && e != r.document ==> n.documents[e] == s.documents[e])
    && r.number == if r.document in s.documents then CurrentNumber(s, r.document) + 1 else 1
  }

  ghost predicate Effect(s: Tables, q: Request, n: Tables, r: Receipt) {
    && r.document in n.documents && n.documents[r.document].current == r.version
    && n.documents[r.document].project == q.project && (r.changed ==> n.documents[r.document].updatedAt == q.now)
    && (r.document in s.documents ==> s.documents[r.document].project == q.project)
    && n.documents[r.document].active == (r.document in s.documents ==> s.documents[r.document].active)
    && (q.expected.Some? ==> q.expected.value == if r.changed then r.number - 1 else r.number)
    && (if r.changed then Adds(s, n, q, r)
        else
          && n.documents == s.documents && n.versions == s.versions
          && SameContent(s, r.document, q) && r.number == CurrentNumber(s, r.document))
  }

  lemma PlacedEffect(s: Tables, q: Request, chosen: string, n: Tables, r: Receipt)
    requires Placed(s, q, chosen) == Success((n, r))
    ensures Effect(s, q, n, r)
    ensures r.changed <==> !Repeats(s, q, chosen)
    ensures Existing(s, q, chosen).Some? ==> r.document == Existing(s, q, chosen).value
  {
  }

  /** Does the request bring what its document already holds? */
  predicate Repeats(s: Tables, q: Request, chosen: string) {
    var d := Existing(s, q, chosen);
    d.Some? && SameContent(s, d.value, q)
  }

  lemma RegisterEffect(s: Tables, q: Request, chosen: string, n: Tables, r: Receipt)
    requires Register(s, q, chosen) == Success((n, r))
    ensures Effect(s, q, n, r)
    ensures r.changed <==> !Repeats(s, q, chosen)
    ensures Existing(s, q, chosen).Some? ==> r.document == Existing(s, q, chosen).value
  {
    PlacedEffect(s, q, chosen, Placed(s, q, chosen).value.0, r);
  }

  // ----- every document is a chain -----------------------------------------------------------------

  ghost predicate VersionOf(s: Tables, d: string, v: string, number: int) {
    v in s.versions && s.versions[v].document == d && s.versions[v].number == number
  }

  ghost predicate Covered(s: Tables, d: string, number: int) { exists v :: VersionOf(s, d, v, number) }

  /** The document's versions are exactly 1 to n, one each, and its current version is n. */
  ghost predicate IsChain(s: Tables, d: string, n: int)
    requires d in s.documents
  {
    && n >= 1 && VersionOf(s, d, s.documents[d].current, n)
    && (forall k :: 1 <= k <= n ==> Covered(s, d, k))
    && (forall v :: v in s.versions && s.versions[v].document == d ==> 1 <= s.versions[v].number <= n)
    && forall v, w, k :: VersionOf(s, d, v, k) && VersionOf(s, d, w, k) ==> v == w
  }

  ghost predicate Chained(s: Tables) {
    && (forall d :: d in s.documents ==> IsChain(s, d, CurrentNumber(s, d)))
    && forall v :: v in s.versions ==> s.versions[v].document in s.documents
  }

  lemma CoveredStays(s: Tables, n: Tables, d: string, k: int)
    requires Covered(s, d, k) && forall v :: v in s.versions ==> v in n.versions && n.versions[v] == s.versions[v]
    ensures Covered(n, d, k)
  {
    var v :| VersionOf(s, d, v, k);
    assert VersionOf(n, d, v, k);
  }

  /** The chain that gets the new version. */
  lemma ChainGrows(s: Tables, n: Tables, q: Request, r: Receipt)
    requires Adds(s, n, q, r) && r.document in n.documents && n.documents[r.document].current == r.version
    requires r.document in s.documents ==> IsChain(s, r.document, CurrentNumber(s, r.document))
    requires forall v :: v in s.versions ==> s.versions[v].document in s.documents
    ensures IsChain(n, r.document, r.number) && CurrentNumber(n, r.document) == r.number
  {
    var d := r.document;
    assert VersionOf(n, d, r.version, r.number);
    forall k | 1 <= k <= r.number ensures Covered(n, d, k) {
      if k < r.number { CoveredStays(s, n, d, k); }
    }
    forall v, w, k | VersionOf(n, d, v, k) && VersionOf(n, d, w, k) ensures v == w {
      if v != r.version && w != r.version { assert VersionOf(s, d, v, k) && VersionOf(s, d, w, k); }
    }
  }

  /** The chains of all other documents. */
  lemma ChainStays(s: Tables, n: Tables, q: Request, r: Receipt, e: string)
    requires Adds(s, n, q, r) && e in s.documents && e != r.document && IsChain(s, e, CurrentNumber(s, e))
    ensures e in n.documents && IsChain(n, e, CurrentNumber(s, e)) && CurrentNumber(n, e) == CurrentNumber(s, e)
  {
    var c := CurrentNumber(s, e);
    assert VersionOf(s, e, s.documents[e].current, c);
    assert VersionOf(n, e, n.documents[e].current, c);
    forall k | 1 <= k <= c ensures Covered(n, e, k) { CoveredStays(s, n, e, k); }
    forall v, w, k | VersionOf(n, e, v, k) && VersionOf(n, e, w, k) ensures v == w {
      assert VersionOf(s, e, v, k) && VersionOf(s, e, w, k);
    }
  }

  lemma SameChain(s: Tables, n: Tables, d: string)
    requires d in s.documents && n.documents == s.documents && n.versions == s.versions
    requires IsChain(s, d, CurrentNumber(s, d))
    ensures IsChain(n, d, CurrentNumber(n, d))
  {
    var c := CurrentNumber(s, d);
    forall k | 1 <= k <= c ensures Covered(n, d, k) { CoveredStays(s, n, d, k); }
    forall v, w, k | VersionOf(n, d, v, k) && VersionOf(n, d, w, k) ensures v == w {
      assert VersionOf(s, d, v, k) && VersionOf(s, d, w, k);
    }
  }

  lemma EffectKeepsChains(s: Tables, q: Request, n: Tables, r: Receipt)
    requires Chained(s) && Effect(s, q, n, r)
    ensures Chained(n)
  {
    forall d | d in n.documents ensures IsChain(n, d, CurrentNumber(n, d)) {
      if !r.changed {
        SameChain(s, n, d);
      } else if d == r.document {
        ChainGrows(s, n, q, r);
      } else {
        ChainStays(s, n, q, r, d);
      }
    }
  }

  /** An effect only adds versions, and no document's number falls. */
  lemma EffectAppends(s: Tables, q: Request, n: Tables, r: Receipt)
    requires Chained(s) && Effect(s, q, n, r)
    ensures forall v :: v in s.versions ==> v in n.versions && n.versions[v] == s.versions[v]
    ensures forall d :: d in s.documents ==> d in n.documents && CurrentNumber(s, d) <= CurrentNumber(n, d)
  {
    forall d | d in s.documents ensures d in n.documents && CurrentNumber(s, d) <= CurrentNumber(n, d) {
      assert IsChain(s, d, CurrentNumber(s, d));
      if r.changed && d != r.document { ChainStays(s, n, q, r, d); }
    }
  }

  // ----- histories -------------------------------------------------------------------------------

  /** The registration succeeds, with one of the rows that the look-up may return. */
  ghost predicate Registers(s: Tables, q: Request, n: Tables, r: Receipt) {
    exists chosen :: LooksUp(s, q, chosen) && Register(s, q, chosen) == Success((n, r))
  }

  ghost predicate Refuses(s: Tables, q: Request) {
    exists chosen :: LooksUp(s, q, chosen) && Register(s, q, chosen).Failure?
  }

  /** `n` follows `s`; a refused registration leaves the tables as they were. */
  ghost predicate Follows(s: Tables, q: Request, n: Tables) {
    (n == s && Refuses(s, q)) || exists r :: Registers(s, q, n, r)
  }

  ghost predicate IsHistory(past: seq<Tables>, qs: seq<Request>) {
    && |past| == |qs| + 1 && past[0].documents == map[] && past[0].versions == map[]
    && forall i :: 0 <= i < |qs| ==> Steps(past, qs, i)
  }

  ghost predicate Steps(past: seq<Tables>, qs: seq<Request>, i: nat)
    requires i < |qs| && |past| == |qs| + 1
  {
    Follows(past[i], qs[i], past[i + 1])
  }

  /** No version is altered or removed, no document leaves its project, and no current number falls. */
  ghost predicate Grows(s: Tables, n: Tables) {
    && (forall v :: v in s.versions ==> v in n.versions && n.versions[v] == s.versions[v])
    && forall d :: d in s.documents ==>
         d in n.documents && CurrentNumber(s, d) <= CurrentNumber(n, d)
         && n.documents[d].project == s.documents[d].project
  }

  lemma GrowsOn(s: Tables, n: Tables, m: Tables)
    requires Grows(s, n) && Grows(n, m)
    ensures Grows(s, m)
  {
  }

  /** Nothing in the registry retires a document. */
  ghost predicate AllActive(s: Tables) {
    forall d :: d in s.documents ==> s.documents[d].active
  }

  lemma RegistersEffect(s: Tables, q: Request, n: Tables, r: Receipt)
    requires Registers(s, q, n, r)
    ensures Effect(s, q, n, r)
  {
    var chosen :| LooksUp(s, q, chosen) && Register(s, q, chosen) == Success((n, r));
    RegisterEffect(s, q, chosen, n, r);
  }

  lemma EffectKeepsRows(s: Tables, q: Request, n: Tables, r: Receipt)
    requires Effect(s, q, n, r)
    ensures AllActive(s) ==> AllActive(n)
    ensures forall d :: d in s.documents ==> d in n.documents && n.documents[d].project == s.documents[d].project
  {
    if AllActive(s) {
      forall d | d in n.documents ensures n.documents[d].active {
        if d != r.document { assert d in s.documents && n.documents[d] == s.documents[d]; }
      }
    }
  }

  lemma StepKeepsChains(s: Tables, q: Request, n: Tables)
    requires Chained(s) && AllActive(s) && Follows(s, q, n)
    ensures Chained(n) && AllActive(n) && Grows(s, n)
  {
    if exists r :: Registers(s, q, n, r) {
      var r :| Registers(s, q, n, r);
      RegistersEffect(s, q, n, r);
      EffectKeepsRows(s, q, n, r);
      EffectKeepsChains(s, q, n, r);
      EffectAppends(s, q, n, r);
    }
  }

  /** At any time every document's versions are exactly 1 to n and its current version is n. */
  lemma {:induction false} AlwaysChained(past: seq<Tables>, qs: seq<Request>, i: nat)
    requires IsHistory(past, qs) && i < |past|
    ensures Chained(past[i]) && AllActive(past[i])
  {
    if i > 0 {
      AlwaysChained(past, qs, i - 1);
      assert Steps(past, qs, i - 1);
      StepKeepsChains(past[i - 1], qs[i - 1], past[i]);
    }
  }

  lemma StepGrows(past: seq<Tables>, qs: seq<Request>, i: nat)
    requires IsHistory(past, qs) && i < |qs|
    ensures Grows(past[i], past[i + 1])
  {
    AlwaysChained(past, qs, i);
    assert Steps(past, qs, i);
    StepKeepsChains(past[i], qs[i], past[i + 1]);
  }

  /** Versions are never altered or removed, and the current number of a document never falls. */
  lemma {:induction false} VersionsAreForever(past: seq<Tables>, qs: seq<Request>, j: nat, i: nat)
    requires IsHistory(past, qs) && j <= i < |past|
    ensures Grows(past[j], past[i])
    decreases i
  {
    if j < i {
      VersionsAreForever(past, qs, j, i - 1);
      StepGrows(past, qs, i - 1);
      GrowsOn(past[j], past[i - 1], past[i]);
    }
  }

  /** Of two registrations of new content that both expect version k at most one succeeds for a document. */
  lemma OneFollowsEach(past: seq<Tables>, qs: seq<Request>, j: nat, i: nat, r: Receipt, later: Receipt)
    requires IsHistory(past, qs) && j < i < |qs|
    requires Registers(past[j], qs[j], past[j + 1], r) && r.changed
    requires Registers(past[i], qs[i], past[i + 1], later) && later.changed
    requires qs[j].expected.Some? && qs[i].expected == qs[j].expected
    ensures r.document != later.document
  {
    VersionsAreForever(past, qs, j + 1, i);
    NumbersDiffer(past[j], qs[j], past[j + 1], r, past[i], qs[i], past[i + 1], later);
  }

  /** The same, of the tables around the two registrations. */
  lemma NumbersDiffer(s: Tables, q: Request, n: Tables, r: Receipt, t: Tables, again: Request, m: Tables,
                      later: Receipt)
    requires Registers(s, q, n, r) && r.changed && Grows(n, t) && Registers(t, again, m, later) && later.changed
    requires q.expected.Some? && again.expected == q.expected
    ensures r.document != later.document
  {
    RegistersEffect(s, q, n, r);
    RegistersEffect(t, again, m, later);
  }

  // ----- registering the same content again ----------------------------------------------------------------

  /** Both requests bring the same content to the same path of the same project. */
  predicate SameFile(q: Request, again: Request) {
    again.project == q.project && again.uri == q.uri && again.sha == q.sha
  }

  /** Registration `i` of the history gave receipt `r`, and the document still has that number at `j`. */
  ghost predicate Stands(past: seq<Tables>, qs: seq<Request>, i: nat, j: nat, r: Receipt) {
    && IsHistory(past, qs) && i < |qs| && i < j < |past|
    && Registers(past[i], qs[i], past[i + 1], r)
    && r.document in past[j].documents && CurrentNumber(past[j], r.document) == r.number
  }

  /** The document is at the request's path and holds what the request brings. */
  predicate Holds(s: Tables, d: string, q: Request) {
    IsAt(s, d, q.project, q.uri) && SameContent(s, d, q)
  }

  /** As long as a document's number stands, so does what was registered under it. */
  lemma StillHolds(past: seq<Tables>, qs: seq<Request>, i: nat, j: nat, r: Receipt)
    requires Stands(past, qs, i, j, r)
    ensures Holds(past[j], r.document, qs[i]) && past[j].documents[r.document].current == r.version
    ensures Chained(past[j])
  {
    AlwaysOrderly(past, qs, i + 1);
    AlwaysOrderly(past, qs, j);
    VersionsAreForever(past, qs, i + 1, j);
    StandingHolds(past[i], qs[i], past[i + 1], r, past[j]);
  }

  /** The invariant of histories; over all tables equal to `s`, so that it is looked into only where they are named. */
  ghost predicate Orderly(s: Tables) { forall t: Tables :: t == s ==> Chained(t) && AllActive(t) }

  lemma AlwaysOrderly(past: seq<Tables>, qs: seq<Request>, i: nat)
    requires IsHistory(past, qs) && i < |past|
    ensures Orderly(past[i])
  {
    AlwaysChained(past, qs, i);
  }

  /** The same, of the tables before and after the registration and some time later. */
  lemma StandingHolds(before: Tables, q: Request, s: Tables, r: Receipt, t: Tables)
    requires Registers(before, q, s, r) && Orderly(s) && Orderly(t) && Grows(s, t)
    requires r.document in t.documents && CurrentNumber(t, r.document) == r.number
    ensures Holds(t, r.document, q) && t.documents[r.document].current == r.version && Chained(t)
  {
    var d := r.document;
    assert Chained(s) && Chained(t) && AllActive(t);
    RegistersEffect(before, q, s, r);
    assert IsChain(s, d, CurrentNumber(s, d)) && IsChain(t, d, CurrentNumber(t, d));
    assert VersionOf(s, d, r.version, r.number);
    assert VersionOf(t, d, r.version, r.number) && VersionOf(t, d, t.documents[d].current, r.number);
  }

  /** Naming the document, a repeat adds nothing, however often and whenever it comes before the next change. */
  lemma NamedRepeatAddsNothing(past: seq<Tables>, qs: seq<Request>, i: nat, j: nat, r: Receipt, n: Tables,
                               again: Request, second: Receipt)
    requires Stands(past, qs, i, j, r)
    requires SameFile(qs[i], again) && Named(again) && again.document == Some(r.document)
    requires Registers(past[j], again, n, second)
    ensures n.versions == past[j].versions && n.documents == past[j].documents
    ensures second == Receipt(r.document, r.version, r.number, false)
  {
    StillHolds(past, qs, i, j, r);
    var chosen :| LooksUp(past[j], again, chosen) && Register(past[j], again, chosen) == Success((n, second));
    RegisterEffect(past[j], again, chosen, n, second);
  }

  /** Another document at the same path, as recent as any there, that holds something else. */
  predicate IsRival(s: Tables, d: string, e: string, q: Request) {
    e != d && IsLatestAt(s, e, q.project, q.uri) && s.versions[s.documents[e].current].sha != q.sha
  }

  lemma UnnamedRepeat(s: Tables, d: string, again: Request, chosen: string, n: Tables, second: Receipt)
    requires Holds(s, d, again) && !Named(again) && LooksUp(s, again, chosen)
    requires Register(s, again, chosen) == Success((n, second))
    ensures n.versions != s.versions <==> IsRival(s, d, chosen, again)
    ensures second.document == chosen
  {
    assert StandsAt(s, again.project, again.uri);
    RegisterEffect(s, again, chosen, n, second);
    if second.changed { assert second.version in n.versions && second.version !in s.versions; }
  }

  /** Without a name, a repeat goes to the latest document at the path; it adds a version exactly if that is a rival. */
  lemma RepeatAddsIffRival(past: seq<Tables>, qs: seq<Request>, i: nat, j: nat, r: Receipt, chosen: string,
                           n: Tables, again: Request, second: Receipt)
    requires Stands(past, qs, i, j, r) && SameFile(qs[i], again) && !Named(again)
    requires LooksUp(past[j], again, chosen) && Register(past[j], again, chosen) == Success((n, second))
    ensures n.versions != past[j].versions <==> IsRival(past[j], r.document, chosen, again)
    ensures second.document == chosen
  {
    StillHolds(past, qs, i, j, r);
    UnnamedRepeat(past[j], r.document, again, chosen, n, second);
  }

  /** The request is in order and its generated ids are new. */
  predicate InOrder(s: Tables, q: Request) {
    && q.project in s.projects && !s.projects[q.project] && q.valid && q.expected.None?
    && (HasTask(q) ==> q.task.value in s.tasks && s.tasks[q.task.value] == q.project)
    && q.freshVersion !in s.versions && q.freshDocument !in s.documents
  }

  ghost predicate CanAdd(s: Tables, q: Request) {
    exists n, r :: Registers(s, q, n, r) && n.versions != s.versions
  }

  lemma RivalIsAdded(s: Tables, d: string, e: string, again: Request)
    requires Holds(s, d, again) && Chained(s) && !Named(again) && InOrder(s, again) && IsRival(s, d, e, again)
    ensures CanAdd(s, again)
  {
    assert IsChain(s, e, CurrentNumber(s, e));
    assert LooksUp(s, again, e) && Existing(s, again, e) == Some(e);
    assert Placed(s, again, e).Success?;
    var (n, second) := Register(s, again, e).value;
    assert Registers(s, again, n, second);
    UnnamedRepeat(s, d, again, e, n, second);
  }

  /** The repeat of a request that stands can add a version exactly if the registry holds a rival of its document. */
  lemma RepeatCanAddIff(past: seq<Tables>, qs: seq<Request>, i: nat, j: nat, r: Receipt, again: Request)
    requires Stands(past, qs, i, j, r) && SameFile(qs[i], again) && !Named(again) && InOrder(past[j], again)
    ensures CanAdd(past[j], again) <==> exists e :: IsRival(past[j], r.document, e, again)
  {
    var s := past[j];
    StillHolds(past, qs, i, j, r);
    if CanAdd(s, again) {
      var n, second :| Registers(s, again, n, second) && n.versions != s.versions;
      var chosen :| LooksUp(s, again, chosen) && Register(s, again, chosen) == Success((n, second));
      UnnamedRepeat(s, r.document, again, chosen, n, second);
    }
    if e :| IsRival(s, r.document, e, again) {
      RivalIsAdded(s, r.document, e, again);
    }
  }

  /** Right after new content was registered, on a clock that has moved on since, the repeat adds nothing. */
  lemma RepeatAddsNothing(past: seq<Tables>, qs: seq<Request>, i: nat, r: Receipt, n: Tables, again: Request,
                          second: Receipt)
    requires Stands(past, qs, i, i + 1, r) && r.changed
    requires forall e :: e in past[i].documents ==> past[i].documents[e].updatedAt < qs[i].now
    requires SameFile(qs[i], again) && !Named(again) && Registers(past[i + 1], again, n, second)
    ensures n.versions == past[i + 1].versions && n.documents == past[i + 1].documents
    ensures second == Receipt(r.document, r.version, r.number, false)
  {
    StillHolds(past, qs, i, i + 1, r);
    NewIsLatest(past[i], qs[i], past[i + 1], r);
    var chosen :| LooksUp(past[i + 1], again, chosen) && Register(past[i + 1], again, chosen) == Success((n, second));
    LatestIsRepeated(past[i + 1], r, again, chosen, n, second);
  }

  lemma NewIsLatest(s: Tables, q: Request, n: Tables, r: Receipt)
    requires Registers(s, q, n, r) && r.changed && forall e :: e in s.documents ==> s.documents[e].updatedAt < q.now
    ensures r.document in n.documents && n.documents[r.document].updatedAt == q.now
    ensures forall e :: e in n.documents && e != r.document ==> n.documents[e].updatedAt < q.now
  {
    RegistersEffect(s, q, n, r);
  }

  lemma LatestIsRepeated(s: Tables, r: Receipt, again: Request, chosen: string, n: Tables, second: Receipt)
    requires Holds(s, r.document, again) && s.documents[r.document].current == r.version
    requires CurrentNumber(s, r.document) == r.number
    requires forall e :: e in s.documents && e != r.document ==>
               s.documents[e].updatedAt < s.documents[r.document].updatedAt
    requires !Named(again) && LooksUp(s, again, chosen) && Register(s, again, chosen) == Success((n, second))
    ensures n.versions == s.versions && n.documents == s.documents
    ensures second == Receipt(r.document, r.version, r.number, false)
  {
    assert StandsAt(s, again.project, again.uri);
    assert chosen == r.document;
    RegisterEffect(s, again, chosen, n, second);
  }

  function Plain(project: string, uri: string, sha: string, document: Option<string>, now: int, id: string,
                 v: string): Request
  {
    Request(project, true, "t", uri, sha, "", "", "", "", None, None, document, None, now, id, v)
  }

  /**
   * Rivals occur: a second document, first registered elsewhere, is moved to the path of the first with other
   * content.
   */
  lemma RivalIsReached(project: string, p: string, q: string, x: string, y: string)
    returns (past: seq<Tables>, qs: seq<Request>)
    requires p != q && x != y
    ensures IsHistory(past, qs) && |qs| == 3 && Stands(past, qs, 0, 3, Receipt("a", "v", 1, true))
    ensures qs[0] == Plain(project, p, x, None, 1, "a", "v") && IsRival(past[3], "a", "b", qs[0])
  {
    var q1, q2 := Plain(project, p, x, None, 1, "a", "v"), Plain(project, q, y, None, 2, "b", "w");
    var q3 := Plain(project, p, y, Some("b"), 3, "", "u");
    var s0 := Tables(map[project := false], map[], map[], map[], {});
    var s1 := s0.(documents := map["a" := FirstRow(q1)], versions := map["v" := NewVersion(q1, "a", 1)]);
    var s2 := s1.(documents := s1.documents["b" := FirstRow(q2)],
                  versions := s1.versions["w" := NewVersion(q2, "b", 1)]);
    var s3 := s2.(documents := s2.documents["b" := FirstRow(q2).(current := "u", updatedAt := 3)],
                  versions := s2.versions["u" := NewVersion(q3, "b", 2)]);
    past, qs := [s0, s1, s2, s3], [q1, q2, q3];
    assert Register(s0, q1, "") == Success((s1, Receipt("a", "v", 1, true)));
    assert Registers(s0, q1, s1, Receipt("a", "v", 1, true));
    assert !IsAt(s1, "a", project, q);
    assert Register(s1, q2, "") == Success((s2, Receipt("b", "w", 1, true)));
    assert Registers(s1, q2, s2, Receipt("b", "w", 1, true));
    assert Register(s2, q3, "") == Success((s3, Receipt("b", "u", 2, true)));
    assert Registers(s2, q3, s3, Receipt("b", "u", 2, true));
    assert IsAt(s3, "b", project, p);
  }
}
