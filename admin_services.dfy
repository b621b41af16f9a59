/**
 * The services admin page. Unlike the other admin pages it keeps its own
 * copy of the services list and talks to the server: each handler sends one
 * request and, only when it succeeds, patches the local list with the
 * server's answer (prepended on create, swapped in on update, filtered out
 * on delete). A request that throws leaves the list as it was.
 *
 * The server's answers are parameters: `None` stands for a request that
 * threw, `Some(record)` for the response body.
 */
module AdminServices {
  import opened Wrappers
  import opened Records
  import opened Collections
  import opened AdminForms

  /** Documents from the server carry their id as `_id`. */
  const ServiceIdKey := "_id"
  const FeaturesKey := "features"
  /** The text fields the edit handler copies into the form, in its order. */
  const TextFields := ["title", "description", "icon", "price"]
  /** The fields registered as `required` (the icon is optional); the submit handler only runs when all are filled in. */
  const RequiredFields := ["title", "description", "price"]

  /** The requests the page sends to the services endpoint. */
  datatype Request = Fetch | Create(body: Record) | Update(id: string, body: Record) | Remove(id: string)

  /** The map's replacement, `_ => answer`. */
  function Always(answer: Record): Record -> Record
  {
    _ => answer
  }

  /** `xs.map(s => s._id === id ? answer : s)`. */
  function Replaced(xs: seq<Record>, id: string, answer: Record): (r: seq<Record>)
    ensures |r| == |xs|
    ensures forall i :: 0 <= i < |xs| && Matches(xs[i], ServiceIdKey, id) ==> r[i] == answer
    ensures forall i :: 0 <= i < |xs| && !Matches(xs[i], ServiceIdKey, id) ==> r[i] == xs[i]
  {
    MapWhere(xs, KeyIs(ServiceIdKey, id), Always(answer))
  }

  /** When an id is carried by nobody, swapping the answer in changes nothing. */
  lemma ReplaceMissingId(xs: seq<Record>, id: string, answer: Record)
    requires forall x :: x in xs ==> !Matches(x, ServiceIdKey, id)
    ensures Replaced(xs, id, answer) == xs
  {
  }

  class ServicesPage {
    var services: seq<Record>
    var isFormOpen: bool
    /** The `_id` of the service being edited, `null` when the form creates one. */
    var editingService: Option<string>
    var form: map<string, string>

    constructor ()
      ensures services == [] && !isFormOpen && editingService == None && form == map[]
    {
      services, isFormOpen, editingService, form := [], false, None, map[];
    }

    /** The fetch on mount: the list becomes the server's answer, or stays as it was when it throws. */
    method FetchServices(answer: Option<seq<Record>>) returns (request: Request)
      modifies this
      ensures request == Fetch
      ensures services == if answer.Some? then answer.value else old(services)
      ensures isFormOpen == old(isFormOpen) && editingService == old(editingService) && form == old(form)
    {
      request := Fetch;
      if answer.Some? {
        services := answer.value;
      }
    }

    /** The "Add Service" button. */
    method OpenForm()
      modifies this
      ensures isFormOpen && services == old(services)
      ensures editingService == old(editingService) && form == old(form)
    {
      isFormOpen := true;
    }

    /**
     * Submitting the form: the features text is parsed into a list and sent
     * as an update of the service being edited, or as a new service when
     * none is. On success the local list takes the server's answer and the
     * form closes; on failure nothing changes and the form stays open.
     */
    method OnSubmit(data: map<string, string>, answer: Option<Record>) returns (request: Request)
      requires FilledIn(data, RequiredFields)
      modifies this
      ensures request == if IsEditing(old(editingService))
        then Update(old(editingService).value, Formatted(data, FeaturesKey))
        else Create(Formatted(data, FeaturesKey))
      ensures answer.None? ==>
        && services == old(services) && isFormOpen == old(isFormOpen)
        && editingService == old(editingService) && form == old(form)
      ensures answer.Some? && request.Update? ==> services == Replaced(old(services), request.id, answer.value)
      ensures answer.Some? && request.Create? ==> services == [answer.value] + old(services)
      ensures answer.Some? ==> !isFormOpen && editingService == None && form == map[]
    {
      var formatted := Formatted(data, FeaturesKey);
      if IsEditing(editingService) {
        request := Update(editingService.value, formatted);
        if answer.Some? {
          services := Replaced(services, request.id, answer.value);
        }
      } else {
        request := Create(formatted);
        if answer.Some? {
          services := [answer.value] + services;
        }
      }
      if answer.Some? {
        HandleCloseForm();
      }
    }

    /**
     * Opening a service for editing: remember its `_id`, copy its fields
     * into the form with the features joined one per line, and open the
     * form. Joining needs the features to be an array.
     */
    method HandleEdit(service: Record)
      requires FeaturesKey in service && service[FeaturesKey].List?
      modifies this
      ensures editingService == TextOf(service, ServiceIdKey)
      ensures form == Prefill(old(form), service, TextFields, FeaturesKey)
      ensures isFormOpen && services == old(services)
    {
      var prefilled := Prefill(form, service, TextFields, FeaturesKey);
      editingService, form, isFormOpen := TextOf(service, ServiceIdKey), prefilled, true;
    }

    /**
     * Deleting: a declined confirmation sends nothing; otherwise the delete
     * request goes out and, only if it succeeds, the service leaves the list.
     */
    method HandleDelete(id: string, confirmed: bool, succeeded: bool) returns (request: Option<Request>)
      modifies this
      ensures request == if confirmed then Some(Remove(id)) else None
      ensures services == if confirmed && succeeded then Removed(old(services), ServiceIdKey, id) else old(services)
      ensures isFormOpen == old(isFormOpen) && editingService == old(editingService) && form == old(form)
    {
      if !confirmed {
        return None;
      }
      request := Some(Remove(id));
      if succeeded {
        services := Removed(services, ServiceIdKey, id);
      }
    }

    /** Closing the form: closed, nothing being edited, every field reset. */
    method HandleCloseForm()
      modifies this
      ensures !isFormOpen && editingService == None && form == map[]
      ensures services == old(services)
    {
      isFormOpen, editingService, form := false, None, map[];
    }
  }
}
