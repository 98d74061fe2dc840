/**
 * The input data point: loading its configuration, choosing its typed handler
 * from the data-type keyword, and the accessors that guard against being used
 * before setup has finished. Failures the source throws are returned as Err or
 * Fail; the one accessor that may not throw (makeReadHandle) returns a handle
 * holding an error instead.
 */
module TemplateInputs {
  import opened Common
  import opened DataBlocks
  import opened ReadStates
  import Walk

  // ---------------------------------------------------------------------------
  // The data-type keyword table of createHandler
  // ---------------------------------------------------------------------------

  /** The keyword that selects each value kind. */
  function Keyword(kind: ValueKind): string
  {
    match kind
    case BoolKind => "bool"
    case UInt8Kind => "uint8"
    case UInt16Kind => "uint16"
    case UInt32Kind => "uint32"
    case UInt64Kind => "uint64"
    case Int8Kind => "int8"
    case Int16Kind => "int16"
    case Int32Kind => "int32"
    case Int64Kind => "int64"
    case Float32Kind => "float32"
    case Float64Kind => "float64"
    case StringKind => "string"
  }

  /** The keywords createHandler recognises. */
  const Keywords: set<string> :=
    {"bool", "uint8", "uint16", "uint32", "uint64", "int8", "int16", "int32", "int64", "float32", "float64", "string"}

  /** The comparison chain of createHandler: a keyword and the kind of handler it makes. */
  function KindOf(keyword: string): (r: Option<ValueKind>)
  {
    if keyword == "bool" then Some(BoolKind)
    else if keyword == "uint8" then Some(UInt8Kind)
    else if keyword == "uint16" then Some(UInt16Kind)
    else if keyword == "uint32" then Some(UInt32Kind)
    else if keyword == "uint64" then Some(UInt64Kind)
    else if keyword == "int8" then Some(Int8Kind)
    else if keyword == "int16" then Some(Int16Kind)
    else if keyword == "int32" then Some(Int32Kind)
    else if keyword == "int64" then Some(Int64Kind)
    else if keyword == "float32" then Some(Float32Kind)
    else if keyword == "float64" then Some(Float64Kind)
    else if keyword == "string" then Some(StringKind)
    else None
  }

  /**
   * createHandler: the value must be a string; a keyword of the table selects
   * the handler of that kind, any other keyword is an unknown data type.
   */
  function CreateHandler(value: JsonValue): (r: Result<ValueKind>)
    ensures !value.JsonString? ==> r == Err(NotAString)
    ensures value.JsonString? ==> (r.Ok? <==> value.s in Keywords)
    ensures value.JsonString? && r.Err? ==> r.failure == UnknownDataType(value.s)
    ensures r.Ok? ==> value == JsonString(Keyword(r.value))
  {
    match AsString(value)
    case Err(f) => Err(f)
    case Ok(keyword) =>
      match KindOf(keyword)
      case Some(kind) => Ok(kind)
      case None => Err(UnknownDataType(keyword))
  }

  /** Every kind has a keyword, and createHandler maps that keyword back to the kind. */
  lemma CreateHandlerInvertsKeyword(kind: ValueKind)
    ensures Keyword(kind) in Keywords
    ensures CreateHandler(JsonString(Keyword(kind))) == Ok(kind)
  {
  }

  /** No two kinds share a keyword. */
  lemma KeywordsAreDistinct(a: ValueKind, b: ValueKind)
    ensures Keyword(a) == Keyword(b) ==> a == b
  {
    CreateHandlerInvertsKeyword(a);
    CreateHandlerInvertsKeyword(b);
  }

  // ---------------------------------------------------------------------------
  // load
  // ---------------------------------------------------------------------------

  /** One member of the JSON object that configures an input. */
  datatype Member = Member(name: string, value: JsonValue)

  /** What the walk over the members has collected so far. */
  datatype LoadState = LoadState(kind: Option<ValueKind>, references: seq<JsonValue>)

  /** What a successful load leaves: the handler's kind and the I/O transaction references to resolve. */
  datatype Loaded = Loaded(kind: ValueKind, references: seq<JsonValue>)

  /** A member the walk accepts. */
  predicate Acceptable(m: Member)
  {
    || (m.name == "dataType" && CreateHandler(m.value).Ok?)
    || m.name == "ioTransaction"
    || (m.name == "TODO" && AsUInt64(m.value).Ok?)
  }

  /**
   * The walk of load over the members, in order: "dataType" creates the
   * handler (a later one replaces an earlier one), "ioTransaction" queues a
   * reference to resolve, "TODO" must hold an unsigned 64-bit number, and any
   * other name is an unknown parameter. The first failure ends the walk.
   */
  function LoadMembers(members: seq<Member>, state: LoadState): Result<LoadState>
  {
    if members == [] then Ok(state)
    else
      var m := members[0];
      if m.name == "dataType" then
        match CreateHandler(m.value)
        case Err(f) => Err(f)
        case Ok(kind) => LoadMembers(members[1..], state.(kind := Some(kind)))
      else if m.name == "ioTransaction" then
        LoadMembers(members[1..], state.(references := state.references + [m.value]))
      else if m.name == "TODO" then
        match AsUInt64(m.value)
        case Err(f) => Err(f)
        case Ok(_) => LoadMembers(members[1..], state)
      else Err(UnknownParameter(m.name))
  }

  /**
   * load on a point whose handler has kind `previous` (none on a fresh point):
   * the walk, then the checks that a handler exists and an I/O transaction was
   * given. A handler left by an earlier load passes the first check.
   */
  function LoadConfigFrom(members: seq<Member>, previous: Option<ValueKind>): Result<Loaded>
  {
    match LoadMembers(members, LoadState(previous, []))
    case Err(f) => Err(f)
    case Ok(s) =>
      if s.kind.None? then Err(MissingDataType)
      else if s.references == [] then Err(MissingIoTransaction)
      else Ok(Loaded(s.kind.value, s.references))
  }

  /** load on a freshly constructed point, the way the loader uses it. */
  function LoadConfig(members: seq<Member>): Result<Loaded>
  {
    LoadConfigFrom(members, None)
  }

  /** The values of the "ioTransaction" members, in order. */
  function ReferencesOf(members: seq<Member>): seq<JsonValue>
  {
    if members == [] then []
    else if members[0].name == "ioTransaction" then [members[0].value] + ReferencesOf(members[1..])
    else ReferencesOf(members[1..])
  }

  /** `members[i]` is the last "dataType" member: the one whose handler load keeps. */
  predicate IsLastDataType(members: seq<Member>, i: int)
  {
    && 0 <= i < |members| && members[i].name == "dataType"
    && forall j :: i < j < |members| ==> members[j].name != "dataType"
  }

  /**
   * The walk succeeds exactly when every member is acceptable, and then has
   * added references exactly when some member is "ioTransaction".
   */
  lemma {:induction false} LoadMembersFacts(members: seq<Member>, state: LoadState)
    ensures LoadMembers(members, state).Ok? <==> forall i :: 0 <= i < |members| ==> Acceptable(members[i])
    ensures LoadMembers(members, state).Ok? ==>
      var s := LoadMembers(members, state).value;
      && ((|s.references| > |state.references|)
          <==> exists i :: 0 <= i < |members| && members[i].name == "ioTransaction")
      && state.references <= s.references
  {
    if members != [] {
      var m, rest := members[0], members[1..];
      assert forall i :: 1 <= i < |members| ==> members[i] == rest[i - 1];
      if m.name == "dataType" {
        match CreateHandler(m.value)
        case Err(f) =>
        case Ok(kind) => LoadMembersFacts(rest, state.(kind := Some(kind)));
      } else if m.name == "ioTransaction" {
        LoadMembersFacts(rest, state.(references := state.references + [m.value]));
      } else if m.name == "TODO" {
        match AsUInt64(m.value)
        case Err(f) =>
        case Ok(_) => LoadMembersFacts(rest, state);
      }
    }
  }

  /** A successful walk adds one reference per "ioTransaction" member: their values, in member order. */
  lemma {:induction false} LoadMembersReferences(members: seq<Member>, state: LoadState)
    requires LoadMembers(members, state).Ok?
    ensures LoadMembers(members, state).value.references == state.references + ReferencesOf(members)
  {
    if members != [] {
      var m, rest := members[0], members[1..];
      if m.name == "dataType" {
        LoadMembersReferences(rest, state.(kind := Some(CreateHandler(m.value).value)));
      } else if m.name == "ioTransaction" {
        LoadMembersReferences(rest, state.(references := state.references + [m.value]));
        assert state.references + [m.value] + ReferencesOf(rest) == state.references + ReferencesOf(members);
      } else {
        LoadMembersReferences(rest, state);
      }
    }
  }

  /**
   * After a successful walk there is a kind exactly when the walk started
   * with one or some member is "dataType". Every "dataType" member replaces
   * the handler, so the kind is that of the last such member; without one it
   * is the kind the walk started with.
   */
  lemma {:induction false} LoadMembersKind(members: seq<Member>, state: LoadState)
    requires LoadMembers(members, state).Ok?
    ensures var s := LoadMembers(members, state).value;
      && (s.kind.Some? <==> state.kind.Some? || exists i :: 0 <= i < |members| && members[i].name == "dataType")
      && ((forall i :: 0 <= i < |members| ==> members[i].name != "dataType") ==> s.kind == state.kind)
      && (forall i :: IsLastDataType(members, i) ==> s.kind.Some? && CreateHandler(members[i].value) == Ok(s.kind.value))
  {
    if members != [] {
      var m, rest := members[0], members[1..];
      assert forall i :: 1 <= i < |members| ==> members[i] == rest[i - 1];
      assert forall i :: 1 <= i < |members| && IsLastDataType(members, i) ==> IsLastDataType(rest, i - 1);
      if m.name == "dataType" {
        var kind := CreateHandler(m.value).value;
        LoadMembersKind(rest, state.(kind := Some(kind)));
        assert IsLastDataType(members, 0) ==> forall j :: 0 <= j < |rest| ==> rest[j].name != "dataType";
      } else if m.name == "ioTransaction" {
        LoadMembersKind(rest, state.(references := state.references + [m.value]));
      } else {
        LoadMembersKind(rest, state);
      }
    }
  }

  /** Where some member is "dataType", one of them is the last. */
  lemma {:induction false} LastDataTypeExists(members: seq<Member>)
    requires exists i :: 0 <= i < |members| && members[i].name == "dataType"
    ensures exists i :: IsLastDataType(members, i)
  {
    var n := |members| - 1;
    if members[n].name == "dataType" {
      assert IsLastDataType(members, n);
    } else {
      var front := members[..n];
      var k :| 0 <= k < |members| && members[k].name == "dataType";
      assert front[k] == members[k];
      LastDataTypeExists(front);
      var i :| IsLastDataType(front, i);
      assert IsLastDataType(members, i);
    }
  }

  /**
   * load succeeds exactly when every member is acceptable, one names the data
   * type and one the I/O transaction; the handler is then of the kind the
   * last "dataType" member names.
   */
  lemma LoadSucceedsExactly(members: seq<Member>)
    ensures LoadConfig(members).Ok? <==>
      && (forall i :: 0 <= i < |members| ==> Acceptable(members[i]))
      && (exists i :: 0 <= i < |members| && members[i].name == "dataType")
      && (exists i :: 0 <= i < |members| && members[i].name == "ioTransaction")
    ensures LoadConfig(members).Ok? ==>
      exists i :: IsLastDataType(members, i) && CreateHandler(members[i].value) == Ok(LoadConfig(members).value.kind)
    ensures LoadConfig(members).Ok? ==> LoadConfig(members).value.references == ReferencesOf(members)
  {
    LoadMembersFacts(members, LoadState(None, []));
    if LoadMembers(members, LoadState(None, [])).Ok? {
      LoadMembersKind(members, LoadState(None, []));
      LoadMembersReferences(members, LoadState(None, []));
    }
    if LoadConfig(members).Ok? {
      LastDataTypeExists(members);
    }
  }

  /**
   * load on a point that already has a handler of kind `previous`: a
   * "dataType" member is no longer needed, because the check tests the
   * handler itself. Success then needs only acceptable members and an
   * "ioTransaction" member; without a "dataType" member the kind stays.
   */
  lemma ReloadSucceedsExactly(members: seq<Member>, previous: ValueKind)
    ensures LoadConfigFrom(members, Some(previous)).Ok? <==>
      && (forall i :: 0 <= i < |members| ==> Acceptable(members[i]))
      && (exists i :: 0 <= i < |members| && members[i].name == "ioTransaction")
    ensures LoadConfigFrom(members, Some(previous)).Ok? ==>
      && LoadConfigFrom(members, Some(previous)).value.references == ReferencesOf(members)
      && ((forall i :: 0 <= i < |members| ==> members[i].name != "dataType")
          ==> LoadConfigFrom(members, Some(previous)).value.kind == previous)
      && (forall i :: IsLastDataType(members, i) ==>
                        CreateHandler(members[i].value) == Ok(LoadConfigFrom(members, Some(previous)).value.kind))
  {
    LoadMembersFacts(members, LoadState(Some(previous), []));
    if LoadMembers(members, LoadState(Some(previous), [])).Ok? {
      LoadMembersKind(members, LoadState(Some(previous), []));
      LoadMembersReferences(members, LoadState(Some(previous), []));
    }
  }

  /** A member with a name other than "dataType", "ioTransaction" or "TODO" makes load fail. */
  lemma UnknownParameterFails(members: seq<Member>, k: nat)
    requires k < |members|
    requires members[k].name !in {"dataType", "ioTransaction", "TODO"}
    ensures LoadConfig(members).Err?
    ensures (forall i :: 0 <= i < k ==> Acceptable(members[i])) ==>
            LoadConfig(members) == Err(UnknownParameter(members[k].name))
  {
    LoadSucceedsExactly(members);
    if forall i :: 0 <= i < k ==> Acceptable(members[i]) {
      UnknownParameterIsReported(members, k, LoadState(None, []));
    }
  }

  lemma {:induction false} UnknownParameterIsReported(members: seq<Member>, k: nat, state: LoadState)
    requires k < |members|
    requires members[k].name !in {"dataType", "ioTransaction", "TODO"}
    requires forall i :: 0 <= i < k ==> Acceptable(members[i])
    ensures LoadMembers(members, state) == Err(UnknownParameter(members[k].name))
  {
    var m, rest := members[0], members[1..];
    if k > 0 {
      assert Acceptable(m);
      assert forall i :: 0 <= i < k - 1 ==> rest[i] == members[i + 1];
      if m.name == "dataType" {
        UnknownParameterIsReported(rest, k - 1, state.(kind := Some(CreateHandler(m.value).value)));
      } else if m.name == "ioTransaction" {
        UnknownParameterIsReported(rest, k - 1, state.(references := state.references + [m.value]));
      } else {
        UnknownParameterIsReported(rest, k - 1, state);
      }
    }
  }

  /** Without a "dataType" member load fails; when every member is acceptable it fails for that reason. */
  lemma MissingDataTypeFails(members: seq<Member>)
    requires forall i :: 0 <= i < |members| ==> members[i].name != "dataType"
    ensures LoadConfig(members).Err?
    ensures (forall i :: 0 <= i < |members| ==> Acceptable(members[i])) ==>
            LoadConfig(members) == Err(MissingDataType)
  {
    LoadMembersFacts(members, LoadState(None, []));
    if LoadMembers(members, LoadState(None, [])).Ok? {
      LoadMembersKind(members, LoadState(None, []));
    }
  }

  /**
   * Without an "ioTransaction" member load fails; when every member is
   * acceptable and a data type was given it fails for that reason.
   */
  lemma MissingIoTransactionFails(members: seq<Member>)
    requires forall i :: 0 <= i < |members| ==> members[i].name != "ioTransaction"
    ensures LoadConfig(members).Err?
    ensures (forall i :: 0 <= i < |members| ==> Acceptable(members[i]))
            && (exists i :: 0 <= i < |members| && members[i].name == "dataType")
            ==> LoadConfig(members) == Err(MissingIoTransaction)
  {
    LoadMembersFacts(members, LoadState(None, []));
    if LoadMembers(members, LoadState(None, [])).Ok? {
      LoadMembersKind(members, LoadState(None, []));
    }
  }

  // ---------------------------------------------------------------------------
  // The input handler and the input data point
  // ---------------------------------------------------------------------------

  /**
   * The typed input handler behind AbstractTemplateInputHandler. A stand-in:
   * its header is not part of this model; it owns one point read state.
   */
  class InputHandler {
    const kind: ValueKind
    const readState: PointReadState

    constructor (kind: ValueKind)
      ensures this.kind == kind && fresh(readState) && readState.stateHandle == 0
    {
      this.kind := kind;
      readState := new PointReadState();
    }

    function ForEachAttribute(f: Attribute -> bool): (r: Walk.WalkResult<Attribute>)
      ensures r == Walk.ForEach(PointReadStateAttributes, f)
    {
      Walk.ForEach(PointReadStateAttributes, f)
    }

    function ForEachEvent(f: NamedEvent -> bool): (r: Walk.WalkResult<NamedEvent>)
      ensures r == Walk.ForEach(readState.Events(), f)
    {
      Walk.ForEach(readState.Events(), f)
    }

    /** A handle on the point's object in the transaction's read data block; absent for foreign attributes. */
    function MakeReadHandle(attribute: Attribute, readBlock: DataBlock): (r: Option<ReadHandle>)
      reads readState
      ensures r.Some? <==> attribute in PointReadStateAttributes
      ensures r.Some? ==> r.value == DataHandle(readBlock, readState.stateHandle, attribute)
    {
      if attribute in PointReadStateAttributes then Some(DataHandle(readBlock, readState.stateHandle, attribute))
      else None
    }

    method AttachReadState(layout: DataArray, eventCount: nat) returns (eventCount': nat)
      modifies readState, layout
      ensures readState.stateHandle == old(layout.size) && layout.size == old(layout.size) + 1
      ensures eventCount' == eventCount + PointReadStateMaxEvents
    {
      eventCount' := readState.Attach(layout, eventCount);
    }

    method UpdateReadState(block: DataBlock, timeStamp: TimePoint, payloadOrError: PayloadOrError,
                           changes: Changes, eventsToFire: seq<Event>)
      returns (eventsToFire': seq<Event>)
      requires block.writing
      modifies block`staged
      ensures var previous := Get(old(block.staged), readState.stateHandle);
              var next := PointNext(previous, timeStamp, payloadOrError);
              block.staged == old(block.staged)[readState.stateHandle := next]
              && eventsToFire' == eventsToFire + PointEvents(readState.View(), previous, next, changes)
    {
      eventsToFire' := readState.Update(block, timeStamp, payloadOrError, changes, eventsToFire);
    }
  }

  /** The input data point. */
  class TemplateInput {
    const ioComponent: nat
    var handler: InputHandler?        // created by load from the "dataType" member
    var ioTransaction: object?        // set when the "ioTransaction" reference is resolved

    constructor (ioComponent: nat)
      ensures this.ioComponent == ioComponent && handler == null && ioTransaction == null
    {
      this.ioComponent := ioComponent;
      handler := null;
      ioTransaction := null;
    }

    /** The kind of the handler, if the point has one. */
    function HandlerKind(): (r: Option<ValueKind>)
      reads this
      ensures r.Some? <==> handler != null
      ensures r.Some? ==> r.value == handler.kind
    {
      if handler == null then None else Some(handler.kind)
    }

    /**
     * load: walks the members in order, creating a handler for each
     * "dataType" member and collecting the references of the "ioTransaction"
     * members, whose resolution the loader performs afterwards; then checks
     * that the point has a handler and an I/O transaction was given.
     * Succeeds exactly as LoadConfigFrom does from the handler the point had,
     * which on a fresh point is LoadConfig.
     */
    method Load(members: seq<Member>) returns (outcome: Outcome, references: seq<JsonValue>)
      modifies this`handler
      ensures outcome.Pass? <==> LoadConfigFrom(members, old(HandlerKind())).Ok?
      ensures outcome.Fail? ==> outcome.failure == LoadConfigFrom(members, old(HandlerKind())).failure
      ensures outcome.Pass? ==> handler != null
                                && handler.kind == LoadConfigFrom(members, old(HandlerKind())).value.kind
                                && references == LoadConfigFrom(members, old(HandlerKind())).value.references
      ensures handler == old(handler) || (handler != null && fresh(handler) && fresh(handler.readState))
      ensures outcome.Pass? && (exists i :: 0 <= i < |members| && members[i].name == "dataType")
              ==> handler != old(handler)
      ensures (forall i :: 0 <= i < |members| ==> members[i].name != "dataType") ==> handler == old(handler)
    {
      ghost var previous := HandlerKind();
      var ioTransactionLoaded := false;
      references := [];
      ghost var created, replaced := previous, false;
      var i := 0;
      while i < |members|
        invariant 0 <= i <= |members|
        invariant LoadMembers(members, LoadState(previous, []))
                  == LoadMembers(members[i..], LoadState(created, references))
        invariant ioTransactionLoaded <==> references != []
        invariant created == HandlerKind()
        invariant handler == old(handler) || (handler != null && fresh(handler) && fresh(handler.readState))
        invariant replaced <==> exists j :: 0 <= j < i && members[j].name == "dataType"
        invariant replaced <==> handler != old(handler)
      {
        var m := members[i];
        assert members[i..][1..] == members[i + 1..];
        if m.name == "dataType" {
          var kind := CreateHandler(m.value);
          if kind.Err? {
            return Fail(kind.failure), references;
          }
          handler := new InputHandler(kind.value);
          created, replaced := Some(kind.value), true;
        } else if m.name == "ioTransaction" {
          references := references + [m.value];
          ioTransactionLoaded := true;
        } else if m.name == "TODO" {
          var todo := AsUInt64(m.value);
          if todo.Err? {
            return Fail(todo.failure), references;
          }
        } else {
          return Fail(UnknownParameter(m.name)), references;
        }
        i := i + 1;
      }
      if handler == null {
        return Fail(MissingDataType), references;
      }
      if !ioTransactionLoaded {
        return Fail(MissingIoTransaction), references;
      }
      outcome := Pass;
    }

    /** dataType: only the handler is needed; its kind is forwarded unchanged. */
    function DataType(): (r: Result<ValueKind>)
      reads this
      ensures r.Err? <==> handler == null
      ensures r.Err? ==> r.failure == CalledBeforeLoad("dataType")
      ensures r.Ok? ==> r.value == handler.kind
    {
      if handler == null then Err(CalledBeforeLoad("dataType")) else Ok(handler.kind)
    }

    /** directions: an input is always read, never written. */
    function Directions(): (d: set<Direction>)
      ensures InputDirection in d && OutputDirection !in d
    {
      {InputDirection}
    }

    /** forEachAttribute: fails before load and before resolution; otherwise exactly the handler's walk. */
    function ForEachAttribute(f: Attribute -> bool): (r: Result<Walk.WalkResult<Attribute>>)
      reads this
      ensures handler == null ==> r == Err(CalledBeforeLoad("forEachAttribute"))
      ensures handler != null && ioTransaction == null ==> r == Err(CalledBeforeResolve("forEachAttribute"))
      ensures handler != null && ioTransaction != null ==> r == Ok(Walk.ForEach(PointReadStateAttributes, f))
    {
      if handler == null then Err(CalledBeforeLoad("forEachAttribute"))
      else if ioTransaction == null then Err(CalledBeforeResolve("forEachAttribute"))
      else Ok(handler.ForEachAttribute(f))
    }

    /** forEachEvent: fails before load and before resolution; otherwise exactly the handler's walk. */
    function ForEachEvent(f: NamedEvent -> bool): (r: Result<Walk.WalkResult<NamedEvent>>)
      reads this
      ensures handler == null ==> r == Err(CalledBeforeLoad("forEachEvent"))
      ensures handler != null && ioTransaction == null ==> r == Err(CalledBeforeResolve("forEachEvent"))
      ensures handler != null && ioTransaction != null ==> r == Ok(Walk.ForEach(handler.readState.Events(), f))
    {
      if handler == null then Err(CalledBeforeLoad("forEachEvent"))
      else if ioTransaction == null then Err(CalledBeforeResolve("forEachEvent"))
      else Ok(handler.ForEachEvent(f))
    }

    /**
     * makeReadHandle: never throws. Before load or before resolution it
     * returns a handle holding invalid_argument; otherwise the handler's
     * handle, or none for an attribute the handler does not own.
     */
    function MakeReadHandle(attribute: Attribute, readBlock: DataBlock): (r: Option<ReadHandle>)
      reads this, handler, if handler != null then {handler.readState} else {}
      ensures handler == null || ioTransaction == null ==> r == Some(ErrorHandle(InvalidArgument))
      ensures handler != null && ioTransaction != null ==>
                (r.None? <==> attribute !in PointReadStateAttributes)
                && (r.Some? ==> r.value == DataHandle(readBlock, handler.readState.stateHandle, attribute))
    {
      if handler == null then Some(ErrorHandle(InvalidArgument))
      else if ioTransaction == null then Some(ErrorHandle(InvalidArgument))
      else handler.MakeReadHandle(attribute, readBlock)
    }

    /** attachInput: fails before load; otherwise the handler attaches its read state and adds its budget. */
    method AttachInput(layout: DataArray, eventCount: nat) returns (outcome: Outcome, eventCount': nat)
      modifies layout, if handler != null then {handler.readState} else {}
      ensures handler == null ==> outcome == Fail(CalledBeforeLoad("attachInput"))
                                  && eventCount' == eventCount && layout.size == old(layout.size)
      ensures handler != null ==> outcome == Pass
                                  && handler.readState.stateHandle == old(layout.size)
                                  && layout.size == old(layout.size) + 1
                                  && eventCount' == eventCount + PointReadStateMaxEvents
    {
      if handler == null {
        return Fail(CalledBeforeLoad("attachInput")), eventCount;
      }
      eventCount' := handler.AttachReadState(layout, eventCount);
      outcome := Pass;
    }

    /** updateReadState: fails before load; otherwise forwards every argument unchanged to the handler. */
    method UpdateReadState(block: DataBlock, timeStamp: TimePoint, payloadOrError: PayloadOrError,
                           changes: Changes, eventsToFire: seq<Event>)
      returns (outcome: Outcome, eventsToFire': seq<Event>)
      requires block.writing
      modifies block`staged
      ensures handler == null ==> outcome == Fail(CalledBeforeLoad("updateReadState"))
                                  && eventsToFire' == eventsToFire && block.staged == old(block.staged)
      ensures handler != null ==>
                outcome == Pass
                && var previous := Get(old(block.staged), handler.readState.stateHandle);
                   var next := PointNext(previous, timeStamp, payloadOrError);
                   block.staged == old(block.staged)[handler.readState.stateHandle := next]
                   && eventsToFire' == eventsToFire + PointEvents(handler.readState.View(), previous, next, changes)
    {
      if handler == null {
        return Fail(CalledBeforeLoad("updateReadState")), eventsToFire;
      }
      eventsToFire' := handler.UpdateReadState(block, timeStamp, payloadOrError, changes, eventsToFire);
      outcome := Pass;
    }
  }
}
