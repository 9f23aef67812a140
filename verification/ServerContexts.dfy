/** Per-request state: the object that callbacks mutate, and its value. */
module ServerContexts {
  import opened Bytes
  import opened OutputBuffers
  import opened ResponseHeaders
  import opened ServerVariables

  datatype Level = Emergency | Alert | Critical | Error | Warning | Notice | Info | Debug

  function LevelFromRaw(level: int): Level {
    if level <= 0 then Emergency
    else if level == 1 then Alert
    else if level == 2 then Critical
    else if level == 3 then Error
    else if level == 4 then Warning
    else if level == 5 then Notice
    else if level == 6 then Info
    else Debug
  }

  /** The number of a level in the syslog protocol (RFC 5424, section 6.2.1). */
  function Severity(level: Level): nat {
    match level
    case Emergency => 0
    case Alert => 1
    case Critical => 2
    case Error => 3
    case Warning => 4
    case Notice => 5
    case Info => 6
    case Debug => 7
  }

  /** Numbers outside the scale count as its nearer end. */
  lemma LevelIsClamped(level: int)
    ensures Severity(LevelFromRaw(level)) == if level < 0 then 0 else if level > 7 then 7 else level
  {
  }

  datatype Message = Message(level: Level, text: seq<byte>)

  datatype ExecutionResult = ExecutionResult(
    status: nat,
    body: seq<byte>,
    headers: seq<Header>,
    messages: seq<Message>)

  /**
   * The value of a server context. `streamed` is what the output callback has received, if one
   * is installed; `captured` tells whether headers have been captured.
   */
  datatype Context = Context(
    status: nat,
    post: seq<byte>,
    pos: nat,
    buffer: Buffer,
    messages: seq<Message>,
    vars: CStringVars,
    env: seq<Pair>,
    ini: seq<Pair>,
    headers: seq<Header>,
    streamed: Option<seq<seq<byte>>>,
    logToStderr: bool,
    captured: bool)

  // ---------------------------------------------------------------- operations on values

  predicate WellFormed(c: Context) {
    c.pos <= |c.post|
  }

  /** Reading into a buffer of `size` bytes: the new context and the bytes delivered. */
  function AfterRead(c: Context, size: nat): (Context, seq<byte>)
    requires WellFormed(c)
  {
    var n := Min(|c.post| - c.pos, size);
    (c.(pos := c.pos + n), c.post[c.pos..c.pos + n])
  }

  /** Writing output: the new context and the number of bytes taken. */
  function AfterWrite(p: BufferPolicy, c: Context, data: seq<byte>): (Context, nat)
    requires Usable(p)
  {
    match c.streamed
    case Some(chunks) => (c.(streamed := Some(chunks + [data])), |data|)
    case None =>
      match Append(p, c.buffer, data)
      case Some(b) => (c.(buffer := b), |data|)
      case None => (c, 0)
  }

  /** The value stands under the name in the list, and no earlier entry has that name. */
  ghost predicate IsFirst(env: seq<Pair>, name: string, value: string) {
    exists i :: 0 <= i < |env| && env[i] == (name, value) && forall j :: 0 <= j < i ==> env[j].0 != name
  }

  lemma FirstOfTail(env: seq<Pair>, name: string, value: string)
    requires env != [] && env[0].0 != name && IsFirst(env[1..], name, value)
    ensures IsFirst(env, name, value)
  {
    var i :| 0 <= i < |env[1..]| && env[1..][i] == (name, value) && forall j :: 0 <= j < i ==> env[1..][j].0 != name;
    assert forall j :: 1 <= j <= i ==> env[j] == env[1..][j - 1];
    assert env[i + 1] == (name, value);
  }

  /** The first value stored under a name, as `find` yields it. */
  function GetEnv(env: seq<Pair>, name: string): (value: Option<string>)
    ensures value.Some? ==> IsFirst(env, name, value.value)
    ensures value.None? <==> forall p :: p in env ==> p.0 != name
  {
    if env == [] then None
    else if env[0].0 == name then
      assert env[0] == (name, env[0].1);
      Some(env[0].1)
    else
      var rest := GetEnv(env[1..], name);
      if rest.Some? then FirstOfTail(env, name, rest.value); rest else rest
  }

  function IntoResult(c: Context, body: seq<byte>): ExecutionResult {
    ExecutionResult(c.status, body, c.headers, c.messages)
  }

  /** The context of a request before anything happens. */
  function FromExecution(p: BufferPolicy, input: seq<byte>, vars: seq<Pair>, env: seq<Pair>, ini: seq<Pair>,
      logToStderr: bool, streaming: bool): (c: Context)
    ensures WellFormed(c)
  {
    Context(200, input, 0, Fresh(p), [], CStrings(vars), Kept(env), Kept(ini), [],
            if streaming then Some([]) else None, logToStderr, false)
  }

  // ---------------------------------------------------------------- the object

  /** The closure that receives output while the script runs. */
  class OutputCallback {
    var chunks: seq<seq<byte>>

    constructor ()
      ensures chunks == []
    {
      chunks := [];
    }

    method Call(data: seq<byte>)
      modifies this
      ensures chunks == old(chunks) + [data]
    {
      chunks := chunks + [data];
    }
  }

  class ServerContext {
    const id: nat
    const policy: BufferPolicy
    const postData: seq<byte>
    const vars: CStringVars
    const envVars: seq<Pair>
    const iniOverrides: seq<Pair>
    const logToStderr: bool
    const outputCallback: OutputCallback?

    var statusCode: nat
    var postPosition: nat
    var outputBuffer: seq<byte>
    var capacity: nat
    var messages: seq<Message>
    var responseHeaders: seq<Header>

    ghost var copied: nat
    ghost var moves: nat
    ghost var captured: bool

    ghost predicate Valid()
      reads this
    {
      && Usable(policy)
      && postPosition <= |postData|
      && |outputBuffer| <= capacity <= ISIZE_MAX
    }

    ghost function View(): Context
      reads this, outputCallback
    {
      Context(statusCode, postData, postPosition, Buffer(outputBuffer, capacity, copied, moves), messages,
              vars, envVars, iniOverrides, responseHeaders,
              if outputCallback == null then None else Some(outputCallback.chunks), logToStderr, captured)
    }

    /** Conversion of an execution context; strings with NUL are dropped. */
    constructor (id: nat, policy: BufferPolicy, input: seq<byte>, vars: CStringVars,
        env: seq<Pair>, ini: seq<Pair>, logToStderr: bool, outputCallback: OutputCallback?)
      requires Usable(policy)
      requires outputCallback != null ==> outputCallback.chunks == []
      ensures Valid() && this.id == id && this.policy == policy && this.outputCallback == outputCallback
      ensures View() == Context(200, input, 0, Fresh(policy), [], vars, Kept(env), Kept(ini), [],
                                if outputCallback == null then None else Some([]), logToStderr, false)
    {
      this.id, this.policy, postData, this.vars := id, policy, input, vars;
      envVars, iniOverrides := Kept(env), Kept(ini);
      this.logToStderr, this.outputCallback := logToStderr, outputCallback;
      statusCode, postPosition := 200, 0;
      outputBuffer, capacity := [], policy.initial;
      messages, responseHeaders := [], [];
      copied, moves, captured := 0, 0, false;
    }

    /** Fills the front of `buffer` and returns how much of it. */
    method ReadPost(buffer: array<byte>) returns (n: nat)
      requires Valid()
      modifies this`postPosition, buffer
      ensures Valid()
      ensures var (after, data) := AfterRead(old(View()), buffer.Length);
              && View() == after
              && n == |data|
              && buffer[..n] == data
              && buffer[n..] == old(buffer[n..])
    {
      if buffer.Length == 0 {
        return 0;
      }
      var pos := postPosition;
      var remaining := if |postData| >= pos then |postData| - pos else 0;
      var toCopy := Min(remaining, buffer.Length);
      if toCopy > 0 {
        var end := pos + toCopy;
        forall i | 0 <= i < toCopy {
          buffer[i] := postData[pos + i];
        }
        postPosition := end;
      }
      n := toCopy;
    }

    method GrownCapacity(actual: nat, required: nat) returns (newCap: nat)
      requires Usable(policy) && required <= USIZE_MAX
      ensures newCap == NewCap(policy, actual, required)
    {
      match policy.growth {
        case X4 => newCap := Max(Saturate(actual * 4), required + policy.initial);
        case X2 => newCap := Max(Saturate(actual * 2), required + policy.initial);
        case Fixed(step) =>
          var cap := actual;
          while cap < required
            invariant FixedCap(cap, step, required) == FixedCap(actual, step, required)
            decreases required - cap
          {
            cap := Saturate(cap + step);
          }
          newCap := cap;
      }
    }

    /** `None` stands for the panic of an impossible reservation. */
    method WriteOutput(data: seq<byte>) returns (written: Option<nat>)
      requires Valid()
      modifies this`outputBuffer, this`capacity, this`copied, this`moves, outputCallback
      ensures Valid()
      ensures var (after, n) := AfterWrite(policy, old(View()), data);
              && View() == after
              && (written == Some(n) || (written == None && n == 0))
      ensures written.Some? ==> written.value == |data|
    {
      if outputCallback != null {
        outputCallback.Call(data);
        return Some(|data|);
      }
      var actual := capacity;
      var required := |outputBuffer| + |data|;
      if required > actual {
        if required > USIZE_MAX {
          return None;
        }
        var newCap := GrownCapacity(actual, required);
        var reserved := Reserved(actual, newCap);
        if reserved > ISIZE_MAX {
          return None;
        }
        capacity := reserved;
        copied, moves := copied + |outputBuffer|, moves + 1;
      }
      outputBuffer := outputBuffer + data;
      written := Some(|data|);
    }

    method AddHeader(h: Header)
      modifies this`responseHeaders
      ensures responseHeaders == old(responseHeaders) + [h]
    {
      responseHeaders := responseHeaders + [h];
    }

    method AddMessage(m: Message)
      modifies this`messages
      ensures messages == old(messages) + [m]
    {
      messages := messages + [m];
    }
  }
}
