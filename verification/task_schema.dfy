/**
 * The `Task` value object of app/schemas/task.py: four fields checked when the
 * object is built from keyword arguments. A title of at least one character
 * and a description and due date are required; an explicitly given status
 * must be one of three Spanish words, while an omitted status takes the
 * default "pending" without passing through the status validator.
 */
module TaskSchema {
  import opened Wrappers
  import opened Dates

  const Pending: string := "pendiente"
  const InProgress: string := "en progreso"
  const Completed: string := "completada"

  /** The statuses `validate_status` lets through. */
  const ValidStatuses: seq<string> := [Pending, InProgress, Completed]

  /** The declared default of the `status` field; it is not among `ValidStatuses`. */
  const DefaultStatus: string := "pending"

  /**
   * A value bound to a keyword argument: null, booleans, integers and
   * strings, or a `date` object. JSON floats, arrays and nested objects have
   * no constructor here.
   */
  datatype Value = Null | Bool(b: bool) | Int(i: int) | Str(s: string) | DateValue(date: CalendarDate)

  /** Keyword arguments, or a dictionary row, keyed by field name. */
  type Record = map<string, Value>

  datatype Task = Task(title: string, description: string, status: string, dueDate: CalendarDate)

  datatype FieldName = TitleField | DescriptionField | StatusField | DueDateField

  datatype FieldError =
    | Missing(field: FieldName)
    | WrongType(field: FieldName)
    | TitleTooShort
    | StatusNotAllowed(given: string)
    | InvalidDate(text: string)

  /** `validate_status`: the value is returned unchanged when allowed, rejected otherwise. */
  function ValidateStatus(v: string): (r: Result<string, FieldError>)
    ensures r.Success? <==> v in ValidStatuses
    ensures r.Success? ==> r.value == v
    ensures r.Failure? ==> r.error == StatusNotAllowed(v)
  {
    if v in ValidStatuses then Success(v) else Failure(StatusNotAllowed(v))
  }

  function TitleOf(kw: Record): Result<string, FieldError> {
    if "title" !in kw then Failure(Missing(TitleField))
    else match kw["title"]
      case Str(s) => if |s| >= 1 then Success(s) else Failure(TitleTooShort)
      case _ => Failure(WrongType(TitleField))
  }

  function DescriptionOf(kw: Record): Result<string, FieldError> {
    if "description" !in kw then Failure(Missing(DescriptionField))
    else match kw["description"]
      case Str(s) => Success(s)
      case _ => Failure(WrongType(DescriptionField))
  }

  /** The default is taken as is: the validator only sees values that were given. */
  function StatusOf(kw: Record): Result<string, FieldError> {
    if "status" !in kw then Success(DefaultStatus)
    else match kw["status"]
      case Str(s) => ValidateStatus(s)
      case _ => Failure(WrongType(StatusField))
  }

  /** A `date` is taken as is; text is read as `YYYY-MM-DD` and must name a real date. */
  function DueDateOf(kw: Record): Result<CalendarDate, FieldError> {
    if "due_date" !in kw then Failure(Missing(DueDateField))
    else match kw["due_date"]
      case DateValue(d) => Success(d)
      case Str(s) =>
        (match ParseIso(s)
          case Some(d) => Success(d)
          case None => Failure(InvalidDate(s)))
      case _ => Failure(WrongType(DueDateField))
  }

  function ErrorsOf<T>(r: Result<T, FieldError>): seq<FieldError> {
    if r.Failure? then [r.error] else []
  }

  /**
   * `Task(**kw)`: every field is checked, and either all pass and the task is
   * built, or the errors of the failing fields are reported in field order.
   * Keys other than the four field names are ignored.
   */
  function Construct(kw: Record): (r: Result<Task, seq<FieldError>>)
    ensures r.Success? ==> "title" in kw && kw["title"] == Str(r.value.title) && |r.value.title| >= 1
    ensures r.Success? ==> "description" in kw && kw["description"] == Str(r.value.description)
    ensures r.Success? && "status" in kw ==>
              kw["status"] == Str(r.value.status) && r.value.status in ValidStatuses
    ensures r.Success? && "status" !in kw ==> r.value.status == DefaultStatus
    ensures r.Success? ==>
              && "due_date" in kw
              && (|| kw["due_date"] == DateValue(r.value.dueDate)
                  || (kw["due_date"].Str? && ParseIso(kw["due_date"].s) == Some(r.value.dueDate)))
    ensures r.Failure? ==> |r.error| >= 1
  {
    var title, description, status, dueDate := TitleOf(kw), DescriptionOf(kw), StatusOf(kw), DueDateOf(kw);
    if title.Success? && description.Success? && status.Success? && dueDate.Success? then
      Success(Task(title.value, description.value, status.value, dueDate.value))
    else
      Failure(ErrorsOf(title) + ErrorsOf(description) + ErrorsOf(status) + ErrorsOf(dueDate))
  }

  /** The acceptance rules of the four fields, stated on the raw arguments. */
  predicate Acceptable(kw: Record) {
    && "title" in kw && kw["title"].Str? && |kw["title"].s| >= 1
    && "description" in kw && kw["description"].Str?
    && ("status" in kw ==> kw["status"].Str? && kw["status"].s in ValidStatuses)
    && "due_date" in kw &&
       (kw["due_date"].DateValue? || (kw["due_date"].Str? && ParseIso(kw["due_date"].s).Some?))
  }

  /** Construction succeeds exactly on the acceptable arguments. */
  lemma ConstructSucceedsIffAcceptable(kw: Record)
    ensures Construct(kw).Success? <==> Acceptable(kw)
  {
  }

  /** The arguments `Task(title=..., description=..., status=..., due_date=...)` passes. */
  function Arguments(title: string, description: string, status: string, dueDate: CalendarDate): Record {
    map["title" := Str(title), "description" := Str(description),
        "status" := Str(status), "due_date" := DateValue(dueDate)]
  }

  /** With every field given, construction keeps each field exactly and fails only on an empty title or a bad status. */
  lemma ConstructFromFields(title: string, description: string, status: string, dueDate: CalendarDate)
    ensures var r := Construct(Arguments(title, description, status, dueDate));
            (r.Success? <==> |title| >= 1 && status in ValidStatuses) &&
            (r.Success? ==> r.value == Task(title, description, status, dueDate))
  {
  }

  /** An empty title is rejected with `TitleTooShort`, whatever the other fields hold. */
  lemma EmptyTitleRejected(kw: Record)
    requires "title" in kw && kw["title"] == Str("")
    ensures Construct(kw).Failure? && TitleTooShort in Construct(kw).error
  {
  }

  /** An explicit status outside the three allowed ones is rejected, naming the value. */
  lemma BadStatusRejected(kw: Record, s: string)
    requires "status" in kw && kw["status"] == Str(s) && s !in ValidStatuses
    ensures Construct(kw).Failure? && StatusNotAllowed(s) in Construct(kw).error
  {
  }

  /** Without a description or a due date, construction fails naming the missing field; an empty description is fine. */
  lemma RequiredFields(kw: Record)
    ensures "description" !in kw ==> Construct(kw).Failure? && Missing(DescriptionField) in Construct(kw).error
    ensures "due_date" !in kw ==> Construct(kw).Failure? && Missing(DueDateField) in Construct(kw).error
    ensures Acceptable(kw) ==> Construct(kw[ "description" := Str("")]).Success?
  {
  }

  /**
   * Omitting the status yields a task whose status is "pending", a value the
   * validator would have refused had it been given explicitly.
   */
  lemma DefaultStatusBypassesValidator(kw: Record)
    requires Acceptable(kw) && "status" !in kw
    ensures Construct(kw).Success? && Construct(kw).value.status == DefaultStatus
    ensures DefaultStatus !in ValidStatuses
    ensures Construct(kw["status" := Str(DefaultStatus)]).Failure?
  {
  }

  /** Due-date text of the right shape that names no real day (`2024-02-30`) is rejected. */
  lemma ImpossibleDueDateRejected(kw: Record)
    requires "due_date" in kw && kw["due_date"] == Str(IsoText(2024, 2, 30))
    ensures Construct(kw).Failure? && InvalidDate(IsoText(2024, 2, 30)) in Construct(kw).error
  {
    RejectsFebruaryThirtieth();
  }

  /** Keys other than the four field names (an exported `id`, say) do not affect construction. */
  lemma ConstructIgnoresOtherKeys(kw: Record, k: string, v: Value)
    requires k !in {"title", "description", "status", "due_date"}
    ensures Construct(kw[k := v]) == Construct(kw)
  {
  }
}
