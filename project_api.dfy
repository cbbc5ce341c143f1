/**
 * The project data hook (src/hooks/useProjectApi.ts): how database rows
 * become `Project` records and back, which columns an update sends, and the
 * loading/error flags every call sets around its request. The database is not
 * modelled: each call's settled request is an input.
 */
module ProjectApi {
  import opened Types

  /** Every record read from the database is shown with this height. */
  const DefaultHeight: int := 400

  const FetchProjectsFailed: string := "Failed to fetch projects"
  const FetchProjectFailed: string := "Failed to fetch project"
  const CreateFailed: string := "Failed to create project"
  const UpdateFailed: string := "Failed to update project"
  const DeleteFailed: string := "Failed to delete project"

  /** A row of the `projects` table as the client reads it. */
  datatype ProjectRow = ProjectRow(
    id: int,
    title: string,
    category: string,
    image_url: string,
    description: Option<string>,
    client: Option<string>,
    year: Option<string>,
    timeline: Option<string>,
    services: Option<string>)

  /** The object `createProject` inserts: the form's fields with `image_url` renamed, no id or height. */
  datatype InsertRow = InsertRow(
    title: string,
    category: string,
    image_url: string,
    description: Option<string>,
    client: Option<string>,
    year: Option<string>,
    timeline: Option<string>,
    services: Option<string>)

  /** The row-to-record mapping of `getProjects` and `getProject`. */
  function RowToProject(row: ProjectRow): (p: Project)
    ensures p.id == row.id && p.height == DefaultHeight
    ensures p.imageUrl == row.image_url
    ensures p.title == row.title && p.category == row.category
    ensures p.description == row.description && p.client == row.client && p.year == row.year
    ensures p.timeline == row.timeline && p.services == row.services
  {
    Project(row.id, row.title, row.category, row.image_url, DefaultHeight,
      row.description, row.client, row.year, row.timeline, row.services)
  }

  /** The insert mapping of `createProject`. */
  function ToInsert(fields: ProjectFields): (r: InsertRow)
    ensures r.image_url == fields.imageUrl
    ensures r.title == fields.title && r.category == fields.category
    ensures r.description == fields.description && r.client == fields.client && r.year == fields.year
    ensures r.timeline == fields.timeline && r.services == fields.services
  {
    InsertRow(fields.title, fields.category, fields.imageUrl,
      fields.description, fields.client, fields.year, fields.timeline, fields.services)
  }

  /** The row the table holds after an insert, once the database has given it an id. */
  function StoredRow(insert: InsertRow, id: int): ProjectRow
  {
    ProjectRow(id, insert.title, insert.category, insert.image_url,
      insert.description, insert.client, insert.year, insert.timeline, insert.services)
  }

  /** The editable fields of a record. */
  function FieldsOf(p: Project): ProjectFields
  {
    ProjectFields(p.title, p.category, p.imageUrl, p.description, p.client, p.year, p.timeline, p.services)
  }

  /**
   * A project created from some fields and read back has exactly those fields,
   * the id the database chose, and the default height.
   */
  lemma CreateThenRead(fields: ProjectFields, id: int)
    ensures FieldsOf(RowToProject(StoredRow(ToInsert(fields), id))) == fields
    ensures RowToProject(StoredRow(ToInsert(fields), id)).id == id
    ensures RowToProject(StoredRow(ToInsert(fields), id)).height == DefaultHeight
  {
  }

  /** Reading a row, taking its fields and inserting them again reproduces the row's content. */
  lemma ReadThenCreate(row: ProjectRow)
    ensures StoredRow(ToInsert(FieldsOf(RowToProject(row))), row.id) == row
  {
  }

  /** `Partial<...>` fields for an update: `None` is a field left undefined. */
  datatype PartialFields = PartialFields(
    title: Option<string>,
    category: Option<string>,
    imageUrl: Option<string>,
    description: Option<string>,
    client: Option<string>,
    year: Option<string>,
    timeline: Option<string>,
    services: Option<string>)

  /** The columns an update may send. */
  datatype Column = UpdatedAt | Title | Category | ImageUrl | Description | Client | Year | Timeline | Services

  /** The column's name in the `projects` table. */
  function ColumnName(c: Column): (name: string)
    ensures name in ["updated_at", "title", "category", "image_url", "description", "client", "year", "timeline", "services"]
  {
    match c
    case UpdatedAt => "updated_at"
    case Title => "title"
    case Category => "category"
    case ImageUrl => "image_url"
    case Description => "description"
    case Client => "client"
    case Year => "year"
    case Timeline => "timeline"
    case Services => "services"
  }

  /** Different columns have different names, so an update never sends one name twice. */
  lemma ColumnNamesDistinct(c: Column, d: Column)
    ensures ColumnName(c) == ColumnName(d) ==> c == d
  {
  }

  /** The update sends `column` exactly when `field` is defined, with the field's value. */
  predicate Sends(data: map<Column, string>, column: Column, field: Option<string>)
  {
    (column in data <==> field.Some?) && (field.Some? ==> data[column] == field.value)
  }

  /** `if (field !== undefined) updateData[column] = field`: no other column changes. */
  function Put(data: map<Column, string>, column: Column, field: Option<string>): (r: map<Column, string>)
    requires column !in data
    ensures Sends(r, column, field)
    ensures r.Keys <= data.Keys + {column}
    ensures forall c :: c in data ==> c in r && r[c] == data[c]
  {
    if field.Some? then data[column := field.value] else data
  }

  /**
   * `updateData`: the timestamp plus exactly the columns whose field is
   * defined, each with the field's value; `imageUrl` goes to `image_url`.
   */
  method BuildUpdateData(p: PartialFields, now: string) returns (data: map<Column, string>)
    ensures UpdatedAt in data && data[UpdatedAt] == now
    ensures Sends(data, Title, p.title) && Sends(data, Category, p.category)
    ensures Sends(data, ImageUrl, p.imageUrl) && Sends(data, Description, p.description)
    ensures Sends(data, Client, p.client) && Sends(data, Year, p.year)
    ensures Sends(data, Timeline, p.timeline) && Sends(data, Services, p.services)
  {
    data := PutSummary(p, now);
    data := Put(data, Client, p.client);
    data := Put(data, Year, p.year);
    data := Put(data, Timeline, p.timeline);
    data := Put(data, Services, p.services);
  }

  /** The first half of `updateData`: the timestamp and the four summary columns. */
  method PutSummary(p: PartialFields, now: string) returns (data: map<Column, string>)
    ensures UpdatedAt in data && data[UpdatedAt] == now
    ensures Sends(data, Title, p.title) && Sends(data, Category, p.category)
    ensures Sends(data, ImageUrl, p.imageUrl) && Sends(data, Description, p.description)
    ensures Client !in data && Year !in data && Timeline !in data && Services !in data
  {
    data := map[UpdatedAt := now];
    data := Put(data, Title, p.title);
    data := Put(data, Category, p.category);
    data := Put(data, ImageUrl, p.imageUrl);
    data := Put(data, Description, p.description);
  }

  /** What a failed request threw: an `Error` with its message, or any other value. */
  datatype Thrown = ErrorObject(message: string) | OtherValue

  /** How a request settled: its data, or what it threw. */
  datatype Settled<T> = Success(value: T) | Failure(thrown: Thrown)

  /** The message recorded for a failure: the error's own message, or the call's default. */
  function ErrorMessage(thrown: Thrown, default: string): (message: string)
    ensures thrown.ErrorObject? ==> message == thrown.message
    ensures thrown.OtherValue? ==> message == default
  {
    match thrown
    case ErrorObject(m) => m
    case OtherValue => default
  }

  /** The hook's shared flags. */
  class ProjectApiState {
    var isLoading: bool
    var error: Option<string>

    constructor()
      ensures !isLoading && error == None
    {
      isLoading := false;
      error := None;
    }

    /** Every call starts by setting `isLoading` and clearing `error`. */
    method Begin()
      modifies this
      ensures isLoading && error == None
    {
      isLoading := true;
      error := None;
    }

    /** The `finally` and `catch` of a call: loading ends; a failure records its message. */
    method Settle<T>(outcome: Settled<T>, default: string)
      modifies this
      ensures !isLoading
      ensures outcome.Success? ==> error == old(error)
      ensures outcome.Failure? ==> error == Some(ErrorMessage(outcome.thrown, default))
    {
      if outcome.Failure? {
        error := Some(ErrorMessage(outcome.thrown, default));
      }
      isLoading := false;
    }

    /** `getProjects` settles: the mapped rows, or `[]` on failure. */
    method GetProjectsSettled(outcome: Settled<seq<ProjectRow>>) returns (projects: seq<Project>)
      requires isLoading && error == None
      modifies this
      ensures !isLoading
      ensures outcome.Success? ==> error == None && |projects| == |outcome.value|
      ensures outcome.Success? ==> forall i :: 0 <= i < |projects| ==> projects[i] == RowToProject(outcome.value[i])
      ensures outcome.Failure? ==> projects == [] && error == Some(ErrorMessage(outcome.thrown, FetchProjectsFailed))
    {
      Settle(outcome, FetchProjectsFailed);
      if outcome.Success? {
        var rows := outcome.value;
        projects := seq(|rows|, i requires 0 <= i < |rows| => RowToProject(rows[i]));
      } else {
        projects := [];
      }
    }

    /** `getProject` settles: the mapped row, or null on failure. */
    method GetProjectSettled(outcome: Settled<ProjectRow>) returns (project: Option<Project>)
      requires isLoading && error == None
      modifies this
      ensures !isLoading
      ensures outcome.Success? ==> error == None && project == Some(RowToProject(outcome.value))
      ensures outcome.Failure? ==> project == None && error == Some(ErrorMessage(outcome.thrown, FetchProjectFailed))
    {
      Settle(outcome, FetchProjectFailed);
      project := if outcome.Success? then Some(RowToProject(outcome.value)) else None;
    }

    /** `createProject` settles: the new row's id, or null on failure. */
    method CreateProjectSettled(outcome: Settled<ProjectRow>) returns (newId: Option<int>)
      requires isLoading && error == None
      modifies this
      ensures !isLoading
      ensures outcome.Success? ==> error == None && newId == Some(outcome.value.id)
      ensures outcome.Failure? ==> newId == None && error == Some(ErrorMessage(outcome.thrown, CreateFailed))
    {
      Settle(outcome, CreateFailed);
      newId := if outcome.Success? then Some(outcome.value.id) else None;
    }

    /** `updateProject` settles: true, or false on failure. */
    method UpdateProjectSettled(outcome: Settled<()>) returns (success: bool)
      requires isLoading && error == None
      modifies this
      ensures !isLoading
      ensures success <==> outcome.Success?
      ensures outcome.Success? ==> error == None
      ensures outcome.Failure? ==> error == Some(ErrorMessage(outcome.thrown, UpdateFailed))
    {
      Settle(outcome, UpdateFailed);
      success := outcome.Success?;
    }

    /** `deleteProject` settles: true, or false on failure. */
    method DeleteProjectSettled(outcome: Settled<()>) returns (success: bool)
      requires isLoading && error == None
      modifies this
      ensures !isLoading
      ensures success <==> outcome.Success?
      ensures outcome.Success? ==> error == None
      ensures outcome.Failure? ==> error == Some(ErrorMessage(outcome.thrown, DeleteFailed))
    {
      Settle(outcome, DeleteFailed);
      success := outcome.Success?;
    }
  }
}
