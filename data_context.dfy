/**
 * The client-side store shared by the public pages and the admin pages:
 * four ordered collections (services, projects, team members, contact
 * messages) and, for each, an add, an update and a delete. Every operation
 * replaces one collection by a new value computed from the old one; the
 * functions below compute those values and the class holds the state.
 *
 * The fresh identifier (`Date.now().toString()` in the source) and the
 * timestamp of a new contact message are parameters.
 */
module DataContext {
  import opened Records
  import opened Collections

  const IdKey := "id"
  const StatusKey := "status"
  const DateKey := "date"
  const Unread := "unread"

  /** `{...fields, id: newId}`. */
  function WithId(fields: Record, newId: string): (r: Record)
    ensures r.Keys == fields.Keys + {IdKey}
    ensures Matches(r, IdKey, newId)
    ensures forall k :: k in fields && k != IdKey ==> r[k] == fields[k]
  {
    fields[IdKey := Text(newId)]
  }

  /** `[...xs, {...fields, id: newId}]`: the add operations. */
  function Added(xs: seq<Record>, fields: Record, newId: string): (r: seq<Record>)
    ensures |r| == |xs| + 1
    ensures r[..|xs|] == xs
    ensures r[|xs|] == WithId(fields, newId)
  {
    xs + [WithId(fields, newId)]
  }

  /** `{...r, ...patch}`, as a value for the map. */
  function PatchWith(patch: Record): Record -> Record
  {
    r => Spread(r, patch)
  }

  /** `xs.map(r => r.id === id ? {...r, ...patch} : r)`: the update operations. */
  function Updated(xs: seq<Record>, id: string, patch: Record): (r: seq<Record>)
    ensures |r| == |xs|
    ensures forall i :: 0 <= i < |xs| && Matches(xs[i], IdKey, id) ==> r[i] == Spread(xs[i], patch)
    ensures forall i :: 0 <= i < |xs| && !Matches(xs[i], IdKey, id) ==> r[i] == xs[i]
  {
    MapWhere(xs, KeyIs(IdKey, id), PatchWith(patch))
  }

  /**
   * `{...contact, id: newId, date, status: 'unread'}`: the three keys come
   * after the spread, so they override whatever the caller supplied.
   */
  function NewContact(contact: Record, newId: string, date: string): (r: Record)
    ensures r.Keys == contact.Keys + {IdKey, DateKey, StatusKey}
    ensures Matches(r, IdKey, newId) && Matches(r, DateKey, date) && Matches(r, StatusKey, Unread)
    ensures forall k :: k in contact && k !in {IdKey, DateKey, StatusKey} ==> r[k] == contact[k]
  {
    contact[IdKey := Text(newId)][DateKey := Text(date)][StatusKey := Text(Unread)]
  }

  /** `{...c, status}`, as a value for the map. */
  function SetStatus(status: string): Record -> Record
  {
    r => r[StatusKey := Text(status)]
  }

  /** `xs.map(c => c.id === id ? {...c, status} : c)`. */
  function StatusUpdated(xs: seq<Record>, id: string, status: string): (r: seq<Record>)
    ensures |r| == |xs|
    ensures forall i :: 0 <= i < |xs| && !Matches(xs[i], IdKey, id) ==> r[i] == xs[i]
    ensures forall i :: 0 <= i < |xs| && Matches(xs[i], IdKey, id) ==>
      && r[i].Keys == xs[i].Keys + {StatusKey}
      && Matches(r[i], StatusKey, status)
      && forall k :: k in xs[i] && k != StatusKey ==> r[i][k] == xs[i][k]
  {
    MapWhere(xs, KeyIs(IdKey, id), SetStatus(status))
  }

  /** Updating an id no record carries changes nothing. */
  lemma UpdateMissingId(xs: seq<Record>, id: string, patch: Record)
    requires forall x :: x in xs ==> !Matches(x, IdKey, id)
    ensures Updated(xs, id, patch) == xs
  {
  }

  /** Setting the status of an id no contact carries changes nothing. */
  lemma StatusUpdateMissingId(xs: seq<Record>, id: string, status: string)
    requires forall x :: x in xs ==> !Matches(x, IdKey, id)
    ensures StatusUpdated(xs, id, status) == xs
  {
  }

  /** Applying the same update twice is applying it once. */
  lemma UpdateIdempotent(xs: seq<Record>, id: string, patch: Record)
    ensures Updated(Updated(xs, id, patch), id, patch) == Updated(xs, id, patch)
  {
    forall r | KeyIs(IdKey, id)(r) && KeyIs(IdKey, id)(PatchWith(patch)(r))
      ensures PatchWith(patch)(PatchWith(patch)(r)) == PatchWith(patch)(r)
    {
      SpreadIdempotent(r, patch);
    }
    MapWhereIdempotent(xs, KeyIs(IdKey, id), PatchWith(patch));
  }

  /** The store: one sequence per collection, each replaced whole by its operations. */
  class DataStore {
    var services: seq<Record>
    var projects: seq<Record>
    var team: seq<Record>
    var contacts: seq<Record>

    /** The provider's initial state: the seeded lists and no contact messages. */
    constructor (services0: seq<Record>, projects0: seq<Record>, team0: seq<Record>)
      ensures services == services0 && projects == projects0 && team == team0 && contacts == []
    {
      services, projects, team, contacts := services0, projects0, team0, [];
    }

    method AddService(service: Record, newId: string)
      modifies this
      ensures services == Added(old(services), service, newId)
      ensures projects == old(projects) && team == old(team) && contacts == old(contacts)
    {
      services := Added(services, service, newId);
    }

    method UpdateService(id: string, service: Record)
      modifies this
      ensures services == Updated(old(services), id, service)
      ensures projects == old(projects) && team == old(team) && contacts == old(contacts)
    {
      services := Updated(services, id, service);
    }

    method DeleteService(id: string)
      modifies this
      ensures services == Removed(old(services), IdKey, id)
      ensures projects == old(projects) && team == old(team) && contacts == old(contacts)
    {
      services := Removed(services, IdKey, id);
    }

    method AddProject(project: Record, newId: string)
      modifies this
      ensures projects == Added(old(projects), project, newId)
      ensures services == old(services) && team == old(team) && contacts == old(contacts)
    {
      projects := Added(projects, project, newId);
    }

    method UpdateProject(id: string, project: Record)
      modifies this
      ensures projects == Updated(old(projects), id, project)
      ensures services == old(services) && team == old(team) && contacts == old(contacts)
    {
      projects := Updated(projects, id, project);
    }

    method DeleteProject(id: string)
      modifies this
      ensures projects == Removed(old(projects), IdKey, id)
      ensures services == old(services) && team == old(team) && contacts == old(contacts)
    {
      projects := Removed(projects, IdKey, id);
    }

    method AddTeamMember(member: Record, newId: string)
      modifies this
      ensures team == Added(old(team), member, newId)
      ensures services == old(services) && projects == old(projects) && contacts == old(contacts)
    {
      team := Added(team, member, newId);
    }

    method UpdateTeamMember(id: string, member: Record)
      modifies this
      ensures team == Updated(old(team), id, member)
      ensures services == old(services) && projects == old(projects) && contacts == old(contacts)
    {
      team := Updated(team, id, member);
    }

    method DeleteTeamMember(id: string)
      modifies this
      ensures team == Removed(old(team), IdKey, id)
      ensures services == old(services) && projects == old(projects) && contacts == old(contacts)
    {
      team := Removed(team, IdKey, id);
    }

    method AddContact(contact: Record, newId: string, date: string)
      modifies this
      ensures contacts == old(contacts) + [NewContact(contact, newId, date)]
      ensures services == old(services) && projects == old(projects) && team == old(team)
    {
      contacts := contacts + [NewContact(contact, newId, date)];
    }

    method UpdateContactStatus(id: string, status: string)
      modifies this
      ensures contacts == StatusUpdated(old(contacts), id, status)
      ensures services == old(services) && projects == old(projects) && team == old(team)
    {
      contacts := StatusUpdated(contacts, id, status);
    }

    method DeleteContact(id: string)
      modifies this
      ensures contacts == Removed(old(contacts), IdKey, id)
      ensures services == old(services) && projects == old(projects) && team == old(team)
    {
      contacts := Removed(contacts, IdKey, id);
    }
  }
}
