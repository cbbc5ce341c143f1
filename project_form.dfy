/**
 * The add/edit project form (src/pages/admin/ProjectForm.tsx): the form's
 * eight text fields, how a loaded project fills them, the field-by-field
 * change handlers, and which API call a submit makes and where it leads.
 */
module ProjectFormPage {
  import opened Types
  import ProjectData
  import ProjectApi

  /** Where the page goes after a successful save. */
  const ProjectsListPath: string := "/admin/projects"

  /** The category choices of the form's select, in order. */
  const FormCategories: seq<string> := ["Branding", "Web Design", "Illustration", "Typography", "Packaging"]

  /** The form state: every field is a string, the optional ones included. */
  datatype FormData = FormData(
    title: string,
    category: string,
    imageUrl: string,
    description: string,
    client: string,
    year: string,
    timeline: string,
    services: string)

  /** The fields by name: the `name` attribute of each input, and the description editor. */
  datatype FieldName = Title | Category | ImageUrl | Description | Client | Year | Timeline | Services

  /** The form before anything is loaded or typed. */
  const EmptyForm: FormData := FormData("", "", "", "", "", "", "", "")

  function GetField(f: FormData, name: FieldName): string
  {
    match name
    case Title => f.title
    case Category => f.category
    case ImageUrl => f.imageUrl
    case Description => f.description
    case Client => f.client
    case Year => f.year
    case Timeline => f.timeline
    case Services => f.services
  }

  /** Two forms that agree on every field are the same form. */
  lemma FieldsDetermineForm(a: FormData, b: FormData)
    requires forall name :: GetField(a, name) == GetField(b, name)
    ensures a == b
  {
    assert GetField(a, Title) == GetField(b, Title);
    assert GetField(a, Category) == GetField(b, Category);
    assert GetField(a, ImageUrl) == GetField(b, ImageUrl);
    assert GetField(a, Description) == GetField(b, Description);
    assert GetField(a, Client) == GetField(b, Client);
    assert GetField(a, Year) == GetField(b, Year);
    assert GetField(a, Timeline) == GetField(b, Timeline);
    assert GetField(a, Services) == GetField(b, Services);
  }

  /** `{ ...prev, [name]: value }`: the named field takes the value, every other keeps its own. */
  function SetField(f: FormData, name: FieldName, value: string): (r: FormData)
    ensures GetField(r, name) == value
    ensures forall other :: other != name ==> GetField(r, other) == GetField(f, other)
  {
    match name
    case Title => f.(title := value)
    case Category => f.(category := value)
    case ImageUrl => f.(imageUrl := value)
    case Description => f.(description := value)
    case Client => f.(client := value)
    case Year => f.(year := value)
    case Timeline => f.(timeline := value)
    case Services => f.(services := value)
  }

  /** `value || ''` on an optional string. */
  function OrEmpty(o: Option<string>): (s: string)
    ensures o.Some? ==> s == o.value
    ensures o.None? ==> s == ""
  {
    if o.Some? then o.value else ""
  }

  /** The form filled from a loaded project: a missing optional field shows as empty. */
  function FormFromProject(p: Project): (f: FormData)
    ensures GetField(f, Title) == p.title && GetField(f, Category) == p.category
    ensures GetField(f, ImageUrl) == p.imageUrl
    ensures forall name :: name !in {Title, Category, ImageUrl} ==> (GetField(f, name) == "" <==> OptionalField(p, name) in {None, Some("")})
  {
    FormData(p.title, p.category, p.imageUrl,
      OrEmpty(p.description), OrEmpty(p.client), OrEmpty(p.year), OrEmpty(p.timeline), OrEmpty(p.services))
  }

  /** A project's optional field by its form name; the three required fields have none. */
  function OptionalField(p: Project, name: FieldName): Option<string>
  {
    match name
    case Description => p.description
    case Client => p.client
    case Year => p.year
    case Timeline => p.timeline
    case Services => p.services
    case _ => None
  }

  /** What a submit passes to `updateProject` or `createProject`: every field is defined. */
  function ToFields(f: FormData): (fields: ProjectFields)
    ensures fields.title == f.title && fields.category == f.category && fields.imageUrl == f.imageUrl
    ensures fields.description.Some? && fields.client.Some? && fields.year.Some?
    ensures fields.timeline.Some? && fields.services.Some?
  {
    ProjectFields(f.title, f.category, f.imageUrl,
      Some(f.description), Some(f.client), Some(f.year), Some(f.timeline), Some(f.services))
  }

  /**
   * Loading a project and saving it unchanged writes back its fields, once
   * every optional field is present: the form loses nothing.
   */
  lemma LoadThenSaveKeepsFields(p: Project)
    requires p.description.Some? && p.client.Some? && p.year.Some?
    requires p.timeline.Some? && p.services.Some?
    ensures ToFields(FormFromProject(p)) == ProjectApi.FieldsOf(p)
  {
  }

  /** A field left empty is saved as the empty string, not left out. */
  lemma MissingFieldSavedEmpty(p: Project)
    requires p.description.None?
    ensures ToFields(FormFromProject(p)).description == Some("")
    ensures ToFields(FormFromProject(p)) != ProjectApi.FieldsOf(p)
  {
  }

  /** The form offers the same five categories the demo generator draws from. */
  lemma FormCategoriesAreGeneratorCategories()
    ensures FormCategories == ProjectData.Categories
    ensures "" !in FormCategories
  {
  }

  /** The request a submit makes. */
  datatype Request = UpdateRequest(id: string, fields: ProjectFields) | CreateRequest(fields: ProjectFields)

  class ProjectForm {
    /** The `:id` route parameter. */
    const routeId: Option<string>
    var formData: FormData

    constructor(id: Option<string>)
      ensures routeId == id && formData == EmptyForm
    {
      routeId := id;
      formData := EmptyForm;
    }

    /** `!!id`: a present, non-empty id means the form edits an existing project. */
    predicate IsEditing()
    {
      routeId.Some? && routeId.value != ""
    }

    /** The header: "Edit Project" when editing, "Add New Project" otherwise. */
    function HeaderTitle(): (title: string)
      reads this
      ensures title == "Edit Project" <==> IsEditing()
      ensures title in ["Edit Project", "Add New Project"]
    {
      if IsEditing() then "Edit Project" else "Add New Project"
    }

    /**
     * The fetch effect, given what `getProject` returned: only when editing
     * and the project was found does the form take its fields.
     */
    method LoadProject(found: Option<Project>)
      modifies this
      ensures IsEditing() && found.Some? ==> formData == FormFromProject(found.value)
      ensures !(IsEditing() && found.Some?) ==> formData == old(formData)
    {
      if IsEditing() && found.Some? {
        formData := FormFromProject(found.value);
      }
    }

    /** `handleChange`: only the named field changes. */
    method HandleChange(name: FieldName, value: string)
      modifies this
      ensures formData == SetField(old(formData), name, value)
      ensures GetField(formData, name) == value
      ensures forall other :: other != name ==> GetField(formData, other) == GetField(old(formData), other)
    {
      formData := SetField(formData, name, value);
    }

    /** `handleDescriptionChange`: only the description changes. */
    method HandleDescriptionChange(content: string)
      modifies this
      ensures formData == old(formData).(description := content)
      ensures forall other :: other != Description ==> GetField(formData, other) == GetField(old(formData), other)
    {
      formData := SetField(formData, Description, content);
      FieldsDetermineForm(formData, old(formData).(description := content));
    }

    /**
     * `handleSubmit` as written, where `hasEvent` says whether a form event
     * was passed. The header's Save button calls `onSave()` with no argument,
     * so `e.preventDefault()` throws before any request is made; the shell
     * catches and logs the error. Only a call with an event reaches the save.
     */
    method HandleSubmitAsWritten(hasEvent: bool, updated: bool, newId: Option<int>)
      returns (request: Option<Request>, navigateTo: Option<string>)
      ensures !hasEvent ==> request == None && navigateTo == None
      ensures hasEvent ==> request.Some? && request.value.fields == ToFields(formData)
      ensures hasEvent ==> (request.value.UpdateRequest? <==> IsEditing())
      ensures hasEvent ==> (navigateTo.Some? <==> (if IsEditing() then updated else newId.Some? && newId.value != 0))
    {
      if !hasEvent {
        return None, None;
      }
      var r;
      r, navigateTo := Submit(updated, newId);
      request := Some(r);
    }

    /**
     * `handleSubmit` as intended, whichever way it is called, given how the
     * request settles (`updated` for an update, `newId` for a create): editing
     * updates the project named by the route, otherwise a new one is created;
     * the page moves to the projects list only when the result is truthy (a
     * created id of 0 is falsy).
     */
    method Submit(updated: bool, newId: Option<int>) returns (request: Request, navigateTo: Option<string>)
      ensures request.UpdateRequest? <==> IsEditing()
      ensures request.UpdateRequest? ==> request.id == routeId.value
      ensures request.fields == ToFields(formData)
      ensures navigateTo.Some? ==> navigateTo.value == ProjectsListPath
      ensures navigateTo.Some? <==> (if IsEditing() then updated else newId.Some? && newId.value != 0)
    {
      var fields := ToFields(formData);
      navigateTo := None;
      if IsEditing() {
        request := UpdateRequest(routeId.value, fields);
        if updated {
          navigateTo := Some(ProjectsListPath);
        }
      } else {
        request := CreateRequest(fields);
        if newId.Some? && newId.value != 0 {
          navigateTo := Some(ProjectsListPath);
        }
      }
    }
  }
}
