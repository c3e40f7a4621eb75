/**
 * The Elasticsearch chat-store plugin as a state machine. Every command is a
 * pure transition from (in-memory state, configuration file) to a new pair plus
 * the replies sent back. The configuration file is `None` when it does not
 * exist; the outcome of talking to Elasticsearch is an input (`Probe`).
 */
module Plugin {
  import opened Wrappers
  import opened JsonValue
  import Tokens
  import Records

  const DefaultHost: string := "http://localhost:9200"
  const DefaultIndex: string := "gewechat_chat_records"

  const HostKey: string := "es_host"
  const IndexKey: string := "es_index"
  const EnabledKey: string := "enabled"

  // Replies, verbatim.
  const AdminOnly: string := "只有管理员可以执行此操作"
  const NoConfigFile: string := "配置文件不存在，请先重载插件初始化配置"
  const EnabledReply: string := "ES 聊天存储插件已启用"
  const DisabledReply: string := "ES 聊天存储插件已禁用"
  const ConfigUsage: string := "使用方法: /eschat_config [es_host|es_index] <新值>"
  const ReloadHint: string := "请重载插件使配置生效"

  function EnableFailed(detail: string): string { "启用失败: " + detail }
  function UnreachableReply(host: Value): string { EnableFailed("无法连接到 Elasticsearch (" + Render(host) + ")") }
  function UnknownParam(param: string): string { "未知参数: " + param }
  function ConfigUpdated(param: string, value: string): string { "配置已更新: " + param + " = " + value }

  /**
   * In-memory plugin state. `enabled` holds the truth value of the Python
   * attribute (every read of it is a truth test); `client` is the host the
   * current Elasticsearch client was built for, `None` when there is none.
   */
  datatype State = State(enabled: bool, esHost: Value, esIndex: Value, client: Option<Value>)
  {
    predicate HasClient() { client.Some? }
  }

  /** What happens when the plugin builds a client and talks to Elasticsearch. */
  datatype Probe =
    | Reachable                   // ping succeeds, index check succeeds
    | Unreachable                 // ping returns false
    | ConnectFault(msg: string)   // client built, then ping or the index check raises
    | ClientFault(msg: string)    // building the client raises

  /** New state, new configuration file, replies in order. */
  datatype Outcome = Outcome(state: State, file: Option<Config>, replies: seq<string>)

  /** The administrator commands. */
  datatype Command = Enable | Disable | Configure(text: string)

  /** One document handed to the index call. */
  datatype Write = Write(host: Value, index: Value, doc: Records.ChatRecord)

  /** The state right after construction. */
  function Fresh(): (s: State)
    ensures !s.enabled && !s.HasClient()
    ensures forall e :: OnMessage(s, e).None?
  {
    State(false, Str(DefaultHost), Str(DefaultIndex), None)
  }

  /** The configuration file `initialize` writes when there is none. */
  function DefaultFile(): (cfg: Config)
    ensures Load(cfg) == Fresh()
  {
    map[HostKey := Str(DefaultHost), IndexKey := Str(DefaultIndex), EnabledKey := Bool(false)]
  }

  /** Reading a present configuration file, field by field. */
  function Load(cfg: Config): (s: State)
    ensures s.enabled == Truthy(Lookup(cfg, EnabledKey, Bool(false)))
    ensures s.esHost == Lookup(cfg, HostKey, Str(DefaultHost))
    ensures s.esIndex == Lookup(cfg, IndexKey, Str(DefaultIndex))
    ensures s.client.None?
  {
    var f := Fresh();
    State(Truthy(Lookup(cfg, EnabledKey, Bool(false))),
          Lookup(cfg, HostKey, f.esHost),
          Lookup(cfg, IndexKey, f.esIndex),
          f.client)
  }

  /** `initialize`: load or create the file, then connect when enabled; any
      failure while connecting leaves the plugin disabled. */
  function Initialize(file: Option<Config>, probe: Probe): (o: Outcome)
    ensures file.Some? ==> o.file == file
    ensures file.None? ==> o.file == Some(DefaultFile()) && o.state == Fresh()
    ensures file.Some? ==> o.state.esHost == Lookup(file.value, HostKey, Str(DefaultHost))
    ensures file.Some? ==> o.state.esIndex == Lookup(file.value, IndexKey, Str(DefaultIndex))
    ensures o.state.enabled <==>
              file.Some? && Truthy(Lookup(file.value, EnabledKey, Bool(false))) && probe == Reachable
    ensures o.state.enabled ==> o.state.client == Some(o.state.esHost)
    ensures (file.Some? && Truthy(Lookup(file.value, EnabledKey, Bool(false))) && !probe.ClientFault?)
              ==> o.state.client == Some(o.state.esHost)
    ensures (file.None? || !Truthy(Lookup(file.value, EnabledKey, Bool(false))) || probe.ClientFault?)
              ==> o.state.client.None?
    ensures o.replies == []
  {
    var (loaded, file') :=
      match file
      case Some(cfg) => (Load(cfg), file)
      case None => (Fresh(), Some(DefaultFile()));
    var s :=
      if !loaded.enabled then loaded
      else match probe
        case Reachable => loaded.(client := Some(loaded.esHost))
        case Unreachable => loaded.(client := Some(loaded.esHost), enabled := false)
        case ConnectFault(_) => loaded.(client := Some(loaded.esHost), enabled := false)
        case ClientFault(_) => loaded.(enabled := false);
    Outcome(s, file', [])
  }

  /** `eschat_enable`: the file and the state are switched on before the ping,
      whatever the ping then says; only the reply tells success from failure. */
  function EnableCmd(s: State, file: Option<Config>, isAdmin: bool, probe: Probe): (o: Outcome)
    ensures !isAdmin ==> o == Outcome(s, file, [AdminOnly])
    ensures isAdmin && file.None? ==> o == Outcome(s, file, [NoConfigFile])
    ensures isAdmin && file.Some? ==>
              && o.file == Some(file.value[EnabledKey := Bool(true)])
              && o.state.enabled
              && o.state.esHost == s.esHost && o.state.esIndex == s.esIndex
              && o.state.client == (if probe.ClientFault? then s.client else Some(s.esHost))
              && |o.replies| == 1
              && (o.replies[0] == EnabledReply <==> probe == Reachable)
              && (probe == Unreachable ==> o.replies == [UnreachableReply(s.esHost)])
              && (!probe.Reachable? && !probe.Unreachable? ==> o.replies == [EnableFailed(probe.msg)])
  {
    if !isAdmin then Outcome(s, file, [AdminOnly])
    else match file
      case None => Outcome(s, file, [NoConfigFile])
      case Some(cfg) =>
        var file' := Some(cfg[EnabledKey := Bool(true)]);
        var on := s.(enabled := true);
        match probe
        case Reachable => Outcome(on.(client := Some(s.esHost)), file', [EnabledReply])
        case Unreachable =>
          assert UnreachableReply(s.esHost)[1] != EnabledReply[1];
          Outcome(on.(client := Some(s.esHost)), file', [UnreachableReply(s.esHost)])
        case ConnectFault(msg) =>
          assert EnableFailed(msg)[1] != EnabledReply[1];
          Outcome(on.(client := Some(s.esHost)), file', [EnableFailed(msg)])
        case ClientFault(msg) =>
          assert EnableFailed(msg)[1] != EnabledReply[1];
          Outcome(on, file', [EnableFailed(msg)])
  }

  /** `eschat_disable`: switches the file and the state off and drops the client. */
  function DisableCmd(s: State, file: Option<Config>, isAdmin: bool): (o: Outcome)
    ensures !isAdmin ==> o == Outcome(s, file, [AdminOnly])
    ensures isAdmin && file.None? ==> o == Outcome(s, file, [NoConfigFile])
    ensures isAdmin && file.Some? ==>
              && o.file == Some(file.value[EnabledKey := Bool(false)])
              && !o.state.enabled && !o.state.HasClient()
              && o.state.esHost == s.esHost && o.state.esIndex == s.esIndex
              && o.replies == [DisabledReply]
  {
    if !isAdmin then Outcome(s, file, [AdminOnly])
    else match file
      case None => Outcome(s, file, [NoConfigFile])
      case Some(cfg) =>
        Outcome(s.(enabled := false, client := None), Some(cfg[EnabledKey := Bool(false)]), [DisabledReply])
  }

  /** `eschat_config <param> <value>`: the usage check precedes the file check,
      and an unknown parameter returns before anything is written. */
  function ConfigureCmd(s: State, file: Option<Config>, isAdmin: bool, text: string): (o: Outcome)
    ensures !isAdmin ==> o == Outcome(s, file, [AdminOnly])
    ensures isAdmin && |Tokens.Split(text)| < 3 ==> o == Outcome(s, file, [ConfigUsage])
    ensures isAdmin && |Tokens.Split(text)| >= 3 && file.None? ==> o == Outcome(s, file, [NoConfigFile])
    ensures isAdmin && |Tokens.Split(text)| >= 3 && file.Some? ==>
              var param := Tokens.Split(text)[1];
              var value := Tokens.Split(text)[2];
              if param == HostKey then
                o == Outcome(s.(esHost := Str(value)), Some(file.value[HostKey := Str(value)]),
                             [ConfigUpdated(param, value), ReloadHint])
              else if param == IndexKey then
                o == Outcome(s.(esIndex := Str(value)), Some(file.value[IndexKey := Str(value)]),
                             [ConfigUpdated(param, value), ReloadHint])
              else
                o == Outcome(s, file, [UnknownParam(param)])
  {
    if !isAdmin then Outcome(s, file, [AdminOnly])
    else
      var parts := Tokens.Split(text);
      if |parts| < 3 then Outcome(s, file, [ConfigUsage])
      else
        var param := parts[1];
        var value := parts[2];
        match file
        case None => Outcome(s, file, [NoConfigFile])
        case Some(cfg) =>
          if param == HostKey then
            Outcome(s.(esHost := Str(value)), Some(cfg[HostKey := Str(value)]),
                    [ConfigUpdated(param, value), ReloadHint])
          else if param == IndexKey then
            Outcome(s.(esIndex := Str(value)), Some(cfg[IndexKey := Str(value)]),
                    [ConfigUpdated(param, value), ReloadHint])
          else Outcome(s, file, [UnknownParam(param)])
  }

  /**
   * Dispatch of an administrator command. A non-administrator changes nothing;
   * no command creates or deletes the file; only `config` moves the host or
   * index, and `config` never switches the plugin or its client.
   */
  function Handle(s: State, file: Option<Config>, cmd: Command, isAdmin: bool, probe: Probe): (o: Outcome)
    ensures !isAdmin ==> o == Outcome(s, file, [AdminOnly])
    ensures o.file.None? <==> file.None?
    ensures file.None? ==> o.state == s
    ensures !cmd.Configure? ==> o.state.esHost == s.esHost && o.state.esIndex == s.esIndex
    ensures cmd.Configure? ==> o.state.enabled == s.enabled && o.state.client == s.client
    ensures |o.replies| >= 1
  {
    match cmd
    case Enable => EnableCmd(s, file, isAdmin, probe)
    case Disable => DisableCmd(s, file, isAdmin)
    case Configure(text) => ConfigureCmd(s, file, isAdmin, text)
  }

  /** `on_message`: nothing is written unless the plugin is enabled and has a
      client and the message's time is one `datetime` can hold; otherwise the
      normalised document goes to the current index of the current client. */
  function OnMessage(s: State, e: Records.Event): (w: Option<Write>)
    ensures w.Some? <==> s.enabled && s.HasClient() && Records.Normalize(e).Some?
    ensures w.Some? ==> w.value.host == s.client.value && w.value.index == s.esIndex
    ensures w.Some? ==> w.value.doc == Records.BuildRecord(e)
  {
    if !s.enabled || s.client.None? then None
    else match Records.Normalize(e)
      case None => None
      case Some(doc) => Some(Write(s.client.value, s.esIndex, doc))
  }
}
