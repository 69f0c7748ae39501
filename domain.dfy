/** The task record (Domain/Entities/TaskItem.cs), its priority set and the exceptions of the core. */
module Domain {
  import opened Wrappers

  /** The named members of PriorityLevelEnum. */
  datatype PriorityLevel = Low | Medium | High

  /** Underlying value of each named member (C#'s default numbering: the enum's declaration is not part of this model). */
  function PriorityValue(level: PriorityLevel): (v: int)
  {
    match level
    case Low => 0
    case Medium => 1
    case High => 2
  }

  /** The enum's definedness test: v is the value of a named member. */
  predicate IsDefinedPriority(v: int)
  {
    v == PriorityValue(Low) || v == PriorityValue(Medium) || v == PriorityValue(High)
  }

  /** The defined priorities are exactly the values of Low, Medium and High; 10 is not one of them. */
  lemma DefinedPriorities(v: int)
    ensures IsDefinedPriority(v) <==> exists level: PriorityLevel :: PriorityValue(level) == v
    ensures IsDefinedPriority(PriorityValue(Low)) && IsDefinedPriority(PriorityValue(Medium)) && IsDefinedPriority(PriorityValue(High))
    ensures !IsDefinedPriority(10)
  {
    if IsDefinedPriority(v) {
      var level := if v == PriorityValue(Low) then Low else if v == PriorityValue(Medium) then Medium else High;
      assert PriorityValue(level) == v;
    }
  }

  /**
   * A task record. Every property of the C# class is nullable, so each field is an
   * Option; dates are clock readings (ticks), the priority is the enum's underlying value.
   */
  datatype TaskItem = TaskItem(
    id: Option<int>,
    title: Option<string>,
    description: Option<string>,
    isCompleted: Option<bool>,
    dueDate: Option<int>,
    priority: Option<int>,
    createdDate: Option<int>,
    updatedDate: Option<int>)

  /** A freshly constructed item: the property initialisers run, every other property is null. */
  function NewTaskItem(): (t: TaskItem)
    ensures t.description == Some("") && t.isCompleted == Some(false)
    ensures t.id == None && t.createdDate == None && t.updatedDate == None
    ensures t.title == None && t.dueDate == None && t.priority == None
  {
    TaskItem(None, None, Some(""), Some(false), None, None, None, None)
  }

  /** Characters that char.IsWhiteSpace accepts, restricted to the ASCII range and the no-break space. */
  predicate IsWhiteSpace(c: char)
  {
    c == ' ' || c == '\t' || c == '\n' || c == '\r' || c == '\U{000B}' || c == '\U{000C}' || c == '\U{00A0}'
  }

  /** string.IsNullOrWhiteSpace on a non-null string. */
  predicate IsBlank(s: string)
  {
    forall i :: 0 <= i < |s| ==> IsWhiteSpace(s[i])
  }

  /**
   * The [Required] markers: Title, DueDate and Priority are non-null, and the title,
   * being a string, is not empty or white space only.
   */
  predicate HasRequiredFields(t: TaskItem)
  {
    && t.title.Some? && !IsBlank(t.title.value)
    && t.dueDate.Some?
    && t.priority.Some?
  }

  /** An item with none of the required fields set, such as a fresh one, is not valid; one with all three, its title holding a character that is not white space, is. */
  lemma RequiredFields(t: TaskItem)
    ensures !HasRequiredFields(NewTaskItem())
    ensures t.title == None || t.dueDate == None || t.priority == None ==> !HasRequiredFields(t)
    ensures HasRequiredFields(t) <==>
              && t.title.Some? && (exists i :: 0 <= i < |t.title.value| && !IsWhiteSpace(t.title.value[i]))
              && t.dueDate.Some? && t.priority.Some?
  {
  }

  /** createdDate and updatedDate are both set and not out of order. */
  predicate Chronological(t: TaskItem)
  {
    t.createdDate.Some? && t.updatedDate.Some? && t.createdDate.value <= t.updatedDate.value
  }

  /** Every record is chronological and was last updated no later than `now`. */
  predicate AllStampedBy(items: seq<TaskItem>, now: int)
  {
    forall i :: 0 <= i < |items| ==> Chronological(items[i]) && items[i].updatedDate.value <= now
  }

  /** A later clock reading still bounds every record. */
  lemma StampedByLater(items: seq<TaskItem>, before: int, after: int)
    requires AllStampedBy(items, before) && before <= after
    ensures AllStampedBy(items, after)
  {
  }

  /** The exceptions the core throws or passes on. */
  datatype Exception =
    | /** the service's priority check rejects a value (message "Invalid Priority.") */
      InvalidPriority
    | /** ArgumentNullException: Enum.IsDefined receives a null priority */
      PriorityArgumentNull
    | /** the store already holds a record with this key */
      DuplicateKey(key: int)
    | /** any other failure raised behind the storage port */
      PortFailure(message: string)
}
