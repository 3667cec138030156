/**
 * One client connection (sessions.py): session ids drawn from a counter
 * shared by all sessions, the ambient "current session" binding, parsing
 * of inbound frames into events and framing of outbound commands.
 *
 * The transport is a parameter: `Received` is what one receive gives, and
 * `Session.sent` records every frame written, oldest first. JSON is a pair
 * of parameters: `loads` decodes an inbound payload (None when it is not
 * JSON) and `dumps` is the encoder a session is built with.
 */
module Sessions {
  import opened Common
  import Text
  import Messages

  /** The class attribute `Session.__id`: one counter shared by every session. */
  class IdCounter {
    var last: nat

    constructor ()
      ensures last == 0
    {
      last := 0;
    }

    /** `Session.new_id`: one more than the previous id; the first id is 1. */
    method NewId() returns (id: nat)
      modifies this
      ensures id == old(last) + 1 && last == id
    {
      last := last + 1;
      id := last;
    }
  }

  /** What one `socket.receive_text()` yields: a text frame or a disconnect. */
  datatype Received = Frame(text: string) | Disconnect

  /** The wire frame `<name> <payload>`. */
  function FrameOf(name: string, payload: string): string
  {
    name + " " + payload
  }

  /** A frame built from a space-free name splits back into name and payload. */
  lemma {:induction false} FrameRoundTrip(name: string, payload: string)
    requires ' ' !in name
    ensures Text.SplitFirst(FrameOf(name, payload), ' ') == Some((name, payload))
  {
    Text.SplitFirstOfConcat(name, ' ', payload);
  }

  /**
   * The event `event_cls(**json.loads(data))` builds from a payload: a
   * payload that is not JSON fails with ValueError (`JSONDecodeError`), a
   * decoded value that is not a dict with TypeError, and a dict is passed
   * as keyword arguments.
   */
  function EventOf(cls: Messages.ClassDecl, loads: string -> Option<Value>, data: string): (r: Result<Messages.Message, Exception>)
    ensures loads(data).None? ==> r.Failure? && r.error.ValueError?
    ensures loads(data).Some? && !loads(data).value.Dict? ==> r == Failure(TypeError)
    ensures loads(data).Some? && loads(data).value.Dict? ==> r == Messages.FromKwargs(cls, loads(data).value.entries)
  {
    match loads(data)
    case None => Failure(ValueError("JSONDecodeError"))
    case Some(Dict(kwargs)) => Messages.FromKwargs(cls, kwargs)
    case Some(_) => Failure(TypeError)
  }

  /**
   * `_parse_event`: split at the first space (a frame without one fails to
   * unpack: ValueError), resolve the name among the direct Event
   * subclasses (KeyError when unknown), then build the event from the
   * decoded payload.
   */
  function ParseEvent(table: seq<Messages.ClassDecl>, loads: string -> Option<Value>, message: string): (r: Result<Messages.Message, Exception>)
    ensures ' ' !in message ==> r.Failure? && r.error.ValueError?
    ensures r.Success? ==>
              && r.value.cls in table && r.value.cls.base == Messages.EventBase
              && ' ' !in r.value.cls.name && |r.value.values| == |r.value.cls.fields|
              && Text.SplitFirst(message, ' ').Some?
              && Text.SplitFirst(message, ' ').value.0 == r.value.cls.name
              && EventOf(r.value.cls, loads, Text.SplitFirst(message, ' ').value.1) == r
  {
    match Text.SplitFirst(message, ' ')
    case None => Failure(ValueError("not enough values to unpack"))
    case Some((name, data)) =>
      match Messages.GetEventByName(table, name)
      case Failure(e) => Failure(e)
      case Success(cls) => EventOf(cls, loads, data)
  }

  /**
   * The round trip of an event: a frame `<class name> <payload>` whose
   * payload decodes to the event's own `_data` parses back to that event,
   * when its class is the only Event subclass with that name.
   */
  lemma {:induction false} ParseEventOfFrame(table: seq<Messages.ClassDecl>, loads: string -> Option<Value>,
                                            event: Messages.Message, payload: string)
    requires event.cls in table && event.cls.base == Messages.EventBase && ' ' !in event.cls.name
    requires forall c :: c in table && c.base == Messages.EventBase && c.name == event.cls.name ==> c == event.cls
    requires Messages.WellFormed(event) && loads(payload) == Some(Dict(Messages.DataOf(event)))
    ensures ParseEvent(table, loads, FrameOf(event.cls.name, payload)) == Success(event)
  {
    FrameRoundTrip(event.cls.name, payload);
    Messages.FromKwargsOfData(event);
  }

  /**
   * A frame naming a registered Event class fails on its payload: with
   * ValueError when it is not JSON, and with TypeError when it is not an
   * object whose keys are exactly the class's fields.
   */
  lemma {:induction false} ParseEventBadPayload(table: seq<Messages.ClassDecl>, loads: string -> Option<Value>,
                                               cls: Messages.ClassDecl, payload: string)
    requires cls in table && cls.base == Messages.EventBase && ' ' !in cls.name
    requires forall c :: c in table && c.base == Messages.EventBase && c.name == cls.name ==> c == cls
    ensures loads(payload).None? ==> ParseEvent(table, loads, FrameOf(cls.name, payload)).Failure?
                                     && ParseEvent(table, loads, FrameOf(cls.name, payload)).error.ValueError?
    ensures loads(payload).Some? && (!loads(payload).value.Dict? || loads(payload).value.entries.Keys != Messages.FieldSet(cls))
            ==> ParseEvent(table, loads, FrameOf(cls.name, payload)) == Failure(TypeError)
  {
    FrameRoundTrip(cls.name, payload);
  }

  /** A frame whose head names no direct Event subclass fails with KeyError naming it, before its payload is decoded. */
  lemma {:induction false} ParseEventUnknownName(table: seq<Messages.ClassDecl>, loads: string -> Option<Value>,
                                                 name: string, payload: string)
    requires ' ' !in name
    requires forall c :: c in table && c.base == Messages.EventBase ==> c.name != name
    ensures ParseEvent(table, loads, FrameOf(name, payload)) == Failure(KeyError(name))
  {
    FrameRoundTrip(name, payload);
  }

  /**
   * `_listen_event`: a transport disconnect surfaces as SessionClosed; a
   * frame is parsed, and parsing never reports SessionClosed itself.
   */
  function ListenEvent(table: seq<Messages.ClassDecl>, loads: string -> Option<Value>, received: Received): (r: Result<Messages.Message, Exception>)
    ensures r == Failure(SessionClosed) <==> received.Disconnect?
    ensures r.Success? ==> received.Frame? && r == ParseEvent(table, loads, received.text)
  {
    match received
    case Disconnect => Failure(SessionClosed)
    case Frame(message) => ParseEvent(table, loads, message)
  }

  /** The log copy of a command's data in `send_command`: any `html` field elided. */
  function LogCopy(data: Data): (r: Data)
    ensures r.Keys == data.Keys
    ensures "html" in data ==> r["html"] == Str("...")
    ensures forall k :: k in data && k != "html" ==> r[k] == data[k]
  {
    if "html" in data then data["html" := Str("...")] else data
  }

  /** The `_session` context variable of one task. */
  datatype Binding = Unset | Bound(session: Session?)

  class SessionContext {
    var binding: Binding

    constructor ()
      ensures binding == Unset
    {
      binding := Unset;
    }

    /** `Session.get()`: the bound session; LookupError if nothing was ever bound. */
    function Get(): (r: Result<Session?, Exception>)
      reads this
      ensures r.Failure? <==> binding.Unset?
      ensures r.Failure? ==> r.error == LookupError
      ensures r.Success? ==> r.value == binding.session
    {
      match binding
      case Unset => Failure(LookupError)
      case Bound(s) => Success(s)
    }
  }

  class Session {
    const id: string
    const dumps: Data -> string
    var sent: seq<string>
    var logged: seq<(string, Data)>

    /** `Session.__init__`: the id is the decimal text of a freshly drawn counter value. */
    constructor (counter: IdCounter, dumps: Data -> string)
      modifies counter
      ensures counter.last == old(counter.last) + 1
      ensures id == Text.Decimal(counter.last)
      ensures this.dumps == dumps && sent == [] && logged == []
    {
      var n := counter.NewId();
      id := Text.Decimal(n);
      this.dumps := dumps;
      sent := [];
      logged := [];
    }

    /** `__enter__`: this session becomes the current one. */
    method Enter(ctx: SessionContext) returns (self: Session)
      modifies ctx
      ensures self == this && ctx.Get() == Success(this)
    {
      ctx.binding := Bound(this);
      self := this;
    }

    /** `__exit__`: the binding is reset to None. */
    method Exit(ctx: SessionContext)
      modifies ctx
      ensures ctx.Get() == Success(null)
    {
      ctx.binding := Bound(null);
    }

    /**
     * `send_command`: the command is written first, framed as
     * `<class name> <json of its fields>`; the log line then carries a copy
     * of its data with any `html` field elided, so what was sent is unchanged.
     */
    method SendCommand(cmd: Messages.Message)
      requires Messages.WellFormed(cmd)
      modifies this
      ensures sent == old(sent) + [FrameOf(cmd.cls.name, dumps(Messages.DataOf(cmd)))]
      ensures logged == old(logged) + [(cmd.cls.name, LogCopy(Messages.DataOf(cmd)))]
    {
      sent := sent + [FrameOf(cmd.cls.name, dumps(Messages.DataOf(cmd)))];
      logged := logged + [(cmd.cls.name, LogCopy(Messages.DataOf(cmd)))];
    }
  }

  /** Two sessions built from the one shared counter never share an id. */
  method TwoSessionsDistinctIds(counter: IdCounter, dumps: Data -> string) returns (a: Session, b: Session)
    modifies counter
    ensures a.id != b.id
    ensures counter.last == old(counter.last) + 2
  {
    a := new Session(counter, dumps);
    ghost var first := counter.last;
    b := new Session(counter, dumps);
    Text.DecimalInjective(first, counter.last);
  }
}
