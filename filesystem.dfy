/** The filesystem tool's request record and the validator that decides,
    per operation tag, which of its optional fields must be filled in
    (src/agent/tools/filesystem.py). */
module FileSystem {
  import opened Common

  /** The eight operation tags the tool accepts. */
  datatype OperationType = Read | Write | Delete | Search | Glob | Patch | List | Replace
  {
    /** The tag as it is spelled in a request. */
    function Name(): string
    {
      match this
      case Read => "read"
      case Write => "write"
      case Delete => "delete"
      case Search => "search"
      case Glob => "glob"
      case Patch => "patch"
      case List => "list"
      case Replace => "replace"
    }
  }

  /** A filesystem request: a tag and eight optional fields (`None` when the
      caller leaves the field out). */
  datatype FSOperation = FSOperation(
    operation: OperationType,
    path: Option<string>,
    query: Option<string>,
    replacePattern: Option<string>,
    globPattern: Option<string>,
    content: Option<string>,
    readOffset: Option<int>,
    readLength: Option<int>,
    writeAppend: Option<bool>)

  /** The `ValueError` the validator raises, one per check. */
  datatype ValidationError =
    | PathRequired(op: OperationType)
    | ReadRangeRequired
    | WriteAppendRequired
    | QueryRequired
    | GlobPatternRequired
    | ContentRequired(op: OperationType)
    | ReplacePatternRequired
  {
    /** The message the error carries; the glob-pattern message names `glob`
        even when the failing request is a `replace`. */
    function Message(): string
    {
      match this
      case PathRequired(op) => "path is required for '" + op.Name() + "' operation"
      case ReadRangeRequired => "read_offset and read_length are required for 'read' operation"
      case WriteAppendRequired => "write_append is required for 'write' operation"
      case QueryRequired => "query is required for 'search' operation"
      case GlobPatternRequired => "glob_pattern is required for 'glob' operation"
      case ContentRequired(op) => "content is required for '" + op.Name() + "' operation"
      case ReplacePatternRequired => "replace_pattern is required for 'replace' operation"
    }
  }

  predicate NeedsPath(op: OperationType)
  {
    op == Read || op == Write || op == Delete || op == Patch || op == List
  }

  predicate NeedsGlobPattern(op: OperationType)
  {
    op == Glob || op == Replace
  }

  predicate NeedsContent(op: OperationType)
  {
    op == Write || op == Patch || op == Replace
  }

  /** What each tag demands of its request, written tag by tag: a path that
      is neither `None` nor empty for the five file operations, both read
      bounds for `read` (any integer, 0 included), the append flag and some
      content (the empty string included) for `write`, a non-empty query for
      `search`, a non-empty glob pattern for `glob` and `replace`, and a
      replace pattern (possibly empty) plus content for `replace`. */
  predicate WellFormed(o: FSOperation)
  {
    match o.operation
    case Read => Truthy(o.path) && o.readOffset.Some? && o.readLength.Some?
    case Write => Truthy(o.path) && o.writeAppend.Some? && o.content.Some?
    case Delete => Truthy(o.path)
    case Search => Truthy(o.query)
    case Glob => Truthy(o.globPattern)
    case Patch => Truthy(o.path) && o.content.Some?
    case List => Truthy(o.path)
    case Replace => Truthy(o.globPattern) && o.content.Some? && o.replacePattern.Some?
  }

  /** The requirement an error names is one the request really breaks. */
  predicate Justified(o: FSOperation, e: ValidationError)
  {
    match e
    case PathRequired(op) => op == o.operation && NeedsPath(op) && !Truthy(o.path)
    case ReadRangeRequired => o.operation == Read && (o.readOffset.None? || o.readLength.None?)
    case WriteAppendRequired => o.operation == Write && o.writeAppend.None?
    case QueryRequired => o.operation == Search && !Truthy(o.query)
    case GlobPatternRequired => NeedsGlobPattern(o.operation) && !Truthy(o.globPattern)
    case ContentRequired(op) => op == o.operation && NeedsContent(op) && o.content.None?
    case ReplacePatternRequired => o.operation == Replace && o.replacePattern.None?
  }

  /** The position of each check in the validator's order: path, read
      bounds, append flag, query, glob pattern, content, replace pattern. */
  function Rank(e: ValidationError): nat
  {
    match e
    case PathRequired(_) => 0
    case ReadRangeRequired => 1
    case WriteAppendRequired => 2
    case QueryRequired => 3
    case GlobPatternRequired => 4
    case ContentRequired(_) => 5
    case ReplacePatternRequired => 6
  }

  /** `FSOperation.validate_required_fields`: the checks run in a fixed order,
      the first one that fails is the error, and a request that passes them
      all is returned as it is. */
  function ValidateRequiredFields(o: FSOperation): (r: Result<FSOperation, ValidationError>)
    ensures r.Success? <==> WellFormed(o)
    ensures r.Success? ==> r.value == o
    ensures r.Failure? ==> Justified(o, r.error)
    ensures r.Failure? ==> forall e :: Justified(o, e) ==> Rank(r.error) <= Rank(e)
    ensures NeedsPath(o.operation) && !Truthy(o.path) ==> r == Failure(PathRequired(o.operation))
  {
    var op := o.operation;
    if NeedsPath(op) && !Truthy(o.path) then Failure(PathRequired(op))
    else if op == Read && (o.readOffset.None? || o.readLength.None?) then Failure(ReadRangeRequired)
    else if op == Write && o.writeAppend.None? then Failure(WriteAppendRequired)
    else if op == Search && !Truthy(o.query) then Failure(QueryRequired)
    else if NeedsGlobPattern(op) && !Truthy(o.globPattern) then Failure(GlobPatternRequired)
    else if NeedsContent(op) && o.content.None? then Failure(ContentRequired(op))
    else if op == Replace && o.replacePattern.None? then Failure(ReplacePatternRequired)
    else Success(o)
  }

  /** A request with only its tag set. */
  function Bare(op: OperationType): FSOperation
  {
    FSOperation(op, None, None, None, None, None, None, None, None)
  }

  /** The requests the tool's unit test expects to raise are rejected. */
  lemma UnitTestRejections()
    ensures ValidateRequiredFields(Bare(Read)).Failure?
    ensures ValidateRequiredFields(Bare(Write)).Failure?
    ensures ValidateRequiredFields(Bare(Patch)).Failure?
    ensures ValidateRequiredFields(Bare(Search)).Failure?
    ensures ValidateRequiredFields(Bare(Glob)).Failure?
    ensures ValidateRequiredFields(Bare(List)).Failure?
    ensures ValidateRequiredFields(Bare(Read).(path := Some(""), query := Some(""), globPattern := Some(""), content := Some(""))).Failure?
    ensures ValidateRequiredFields(Bare(Write).(path := Some(""), content := Some(""))).Failure?
    ensures ValidateRequiredFields(Bare(Patch).(path := Some(""), content := Some(""))).Failure?
    ensures ValidateRequiredFields(Bare(Search).(path := Some(""), query := Some(""))) == Failure(QueryRequired)
    ensures ValidateRequiredFields(Bare(Replace)).Failure?
  {
  }

  /** The requests the tool's unit test builds are accepted. */
  lemma UnitTestAcceptances()
    ensures ValidateRequiredFields(Bare(Read).(path := Some("test.txt"), readOffset := Some(1), readLength := Some(1))).Success?
    ensures ValidateRequiredFields(Bare(Write).(path := Some("test.txt"), content := Some("test content"), writeAppend := Some(true))).Success?
    ensures ValidateRequiredFields(Bare(Patch).(path := Some("test.txt"), content := Some("test content"))).Success?
    ensures ValidateRequiredFields(Bare(Search).(query := Some("test"))).Success?
    ensures ValidateRequiredFields(Bare(Glob).(globPattern := Some("test.txt"))).Success?
    ensures ValidateRequiredFields(Bare(List).(path := Some("test.txt"))).Success?
    ensures ValidateRequiredFields(Bare(Delete).(path := Some("test.txt"))).Success?
    ensures ValidateRequiredFields(Bare(Replace).(replacePattern := Some("test"), globPattern := Some("test.txt"), content := Some("test content"))).Success?
  {
  }

  /** Zero is an accepted read offset and length, and the empty string is
      accepted content and an accepted replace pattern: those fields are only
      checked against `None`. */
  lemma EmptyValuesAccepted(p: string, g: string)
    requires p != "" && g != ""
    ensures ValidateRequiredFields(Bare(Read).(path := Some(p), readOffset := Some(0), readLength := Some(0))).Success?
    ensures ValidateRequiredFields(Bare(Write).(path := Some(p), content := Some(""), writeAppend := Some(false))).Success?
    ensures ValidateRequiredFields(Bare(Replace).(globPattern := Some(g), content := Some(""), replacePattern := Some(""))).Success?
  {
  }
}
