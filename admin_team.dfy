/**
 * The team admin page: a form that adds a member or updates the member being
 * edited in the shared store, with the skills edited one per line.
 */
module AdminTeam {
  import opened Wrappers
  import opened Records
  import opened AdminForms
  import opened DataContext

  const SkillsKey := "skills"
  /** The text fields the edit handler copies into the form, in its order. */
  const TextFields := ["name", "position", "image", "bio"]
  /** The fields registered as `required`; the submit handler only runs when all are filled in. */
  const RequiredFields := ["name", "position", "image", "bio"]

  class TeamPage {
    const store: DataStore
    var isFormOpen: bool
    /** The id of the member being edited, `null` when the form adds a new one. */
    var editingMember: Option<string>
    var form: map<string, string>

    constructor (store: DataStore)
      ensures this.store == store
      ensures !isFormOpen && editingMember == None && form == map[]
    {
      this.store := store;
      isFormOpen, editingMember, form := false, None, map[];
    }

    /** The "Add Team Member" button. */
    method OpenForm()
      modifies this
      ensures isFormOpen && editingMember == old(editingMember) && form == old(form)
    {
      isFormOpen := true;
    }

    /**
     * Submitting the form: the skills text is parsed into a list, then the
     * member being edited is updated, or a new member is added when none is,
     * and the form is closed. Only the team collection changes.
     */
    method OnSubmit(data: map<string, string>, newId: string)
      requires FilledIn(data, RequiredFields)
      modifies this, store
      ensures IsEditing(old(editingMember)) ==>
        store.team == Updated(old(store.team), old(editingMember).value, Formatted(data, SkillsKey))
      ensures !IsEditing(old(editingMember)) ==>
        store.team == Added(old(store.team), Formatted(data, SkillsKey), newId)
      ensures store.services == old(store.services) && store.projects == old(store.projects)
      ensures store.contacts == old(store.contacts)
      ensures !isFormOpen && editingMember == None && form == map[]
    {
      var formatted := Formatted(data, SkillsKey);
      if IsEditing(editingMember) {
        store.UpdateTeamMember(editingMember.value, formatted);
      } else {
        store.AddTeamMember(formatted, newId);
      }
      HandleCloseForm();
    }

    /**
     * Opening a member for editing: remember its id, copy its fields into
     * the form with the skills joined one per line, and open the form.
     * Joining needs the skills to be an array.
     */
    method HandleEdit(member: Record)
      requires SkillsKey in member && member[SkillsKey].List?
      modifies this
      ensures editingMember == TextOf(member, IdKey)
      ensures form == Prefill(old(form), member, TextFields, SkillsKey)
      ensures isFormOpen
    {
      var prefilled := Prefill(form, member, TextFields, SkillsKey);
      editingMember, form, isFormOpen := TextOf(member, IdKey), prefilled, true;
    }

    /** Deleting after the confirmation dialog; a declined dialog changes nothing. */
    method HandleDelete(id: string, confirmed: bool)
      modifies store
      ensures store.team == if confirmed then Removed(old(store.team), IdKey, id) else old(store.team)
      ensures store.services == old(store.services) && store.projects == old(store.projects)
      ensures store.contacts == old(store.contacts)
    {
      if confirmed {
        store.DeleteTeamMember(id);
      }
    }

    /** Closing the form: closed, nothing being edited, every field reset. */
    method HandleCloseForm()
      modifies this
      ensures !isFormOpen && editingMember == None && form == map[]
    {
      isFormOpen, editingMember, form := false, None, map[];
    }
  }
}
