/**
 * Properties that relate several commands of the plugin: what survives a
 * reload, and where the live state and the file disagree.
 */
module PluginProperties {
  import opened Wrappers
  import opened JsonValue
  import Tokens
  import Records
  import opened Plugin

  /**
   * `config <param> <value>` for a known parameter writes exactly that key,
   * leaves every other key of the file, the switch and the client alone,
   * and a reload reads the new value back.
   */
  lemma {:induction false} ConfigSetsOneKey(s: State, cfg: Config, cmdWord: string, param: string,
                                          value: string, probe: Probe)
    requires param == HostKey || param == IndexKey
    requires Tokens.IsWord(cmdWord) && Tokens.IsWord(value)
    ensures var o := ConfigureCmd(s, Some(cfg), true, Tokens.Join([cmdWord, param, value]));
            && o.file == Some(cfg[param := Str(value)])
            && (forall k :: k in cfg && k != param ==> k in o.file.value && o.file.value[k] == cfg[k])
            && o.state.enabled == s.enabled && o.state.client == s.client
            && (param == HostKey ==> o.state.esHost == Str(value) && o.state.esIndex == s.esIndex)
            && (param == IndexKey ==> o.state.esIndex == Str(value) && o.state.esHost == s.esHost)
            && o.replies == [ConfigUpdated(param, value), ReloadHint]
            && (param == HostKey ==> Initialize(o.file, probe).state.esHost == Str(value))
            && (param == IndexKey ==> Initialize(o.file, probe).state.esIndex == Str(value))
  {
    assert Tokens.IsWord(param) by {
      assert param[0] == 'e';
      assert forall i :: 0 <= i < |param| ==> param[i] in "es_hostindx";
    }
    Tokens.SplitJoin([cmdWord, param, value]);
  }

  /**
   * The asymmetry between `enable` and `initialize`: when Elasticsearch does
   * not answer, `enable` still leaves the plugin switched on (and the file
   * says so), while reloading with the same outcome switches it off.
   */
  lemma EnableAndInitializeDisagreeOnFailure(s: State, cfg: Config, probe: Probe)
    requires probe != Reachable
    ensures var o := EnableCmd(s, Some(cfg), true, probe);
            && o.state.enabled
            && o.replies != [EnabledReply]
            && !Initialize(o.file, probe).state.enabled
  {
  }

  /** A successful `enable` survives a reload that reaches Elasticsearch. */
  lemma EnableSurvivesReload(s: State, cfg: Config, probe: Probe)
    ensures var o := EnableCmd(s, Some(cfg), true, probe);
            var r := Initialize(o.file, Reachable).state;
            r.enabled && r.client == Some(r.esHost)
  {
  }

  /** After `disable` nothing is stored, and nothing is stored after a reload either. */
  lemma DisableSurvivesReload(s: State, cfg: Config, probe: Probe, e: Records.Event)
    ensures var o := DisableCmd(s, Some(cfg), true);
            && OnMessage(o.state, e).None?
            && OnMessage(Initialize(o.file, probe).state, e).None?
  {
  }

  /** The default file `initialize` writes reads back as the constructor state. */
  lemma DefaultFileRoundTrip(p: Probe, q: Probe)
    ensures Initialize(Initialize(None, p).file, q).state == Fresh()
    ensures Initialize(Initialize(None, p).file, q).file == Some(DefaultFile())
  {
  }

  /** `disable` and `enable` are idempotent on the live state and the file. */
  lemma SwitchesIdempotent(s: State, cfg: Config, p1: Probe, p2: Probe)
    ensures var o := DisableCmd(s, Some(cfg), true);
            var o2 := DisableCmd(o.state, o.file, true);
            o2.state == o.state && o2.file == o.file
    ensures var o := EnableCmd(s, Some(cfg), true, p1);
            var o2 := EnableCmd(o.state, o.file, true, p2);
            o2.state.enabled == o.state.enabled && o2.file == o.file
  {
    var d := DisableCmd(s, Some(cfg), true);
    assert d.file.value[EnabledKey := Bool(false)] == d.file.value;
    var e := EnableCmd(s, Some(cfg), true, p1);
    assert e.file.value[EnabledKey := Bool(true)] == e.file.value;
  }

  /**
   * Despite the "reload to take effect" reply, a new index applies to the
   * very next stored message and a new host to the very next `enable`.
   */
  lemma ConfigTakesEffectWithoutReload(s: State, cfg: Config, cmdWord: string, value: string,
                                       e: Records.Event, probe: Probe)
    requires Tokens.IsWord(cmdWord) && Tokens.IsWord(value)
    requires s.enabled && s.HasClient()
    ensures var o := ConfigureCmd(s, Some(cfg), true, Tokens.Join([cmdWord, IndexKey, value]));
            var w := OnMessage(o.state, e);
            && (w.Some? <==> Records.Normalize(e).Some?)
            && (w.Some? ==> w.value == Write(s.client.value, Str(value), Records.BuildRecord(e)))
    ensures var o := ConfigureCmd(s, Some(cfg), true, Tokens.Join([cmdWord, HostKey, value]));
            var en := EnableCmd(o.state, o.file, true, probe);
            !probe.ClientFault? ==> en.state.client == Some(Str(value))
  {
    ConfigSetsOneKey(s, cfg, cmdWord, IndexKey, value, probe);
    ConfigSetsOneKey(s, cfg, cmdWord, HostKey, value, probe);
  }

  /**
   * When building the client raises, `enable` reports failure yet leaves the
   * plugin switched on with whatever client it had before: with none,
   * messages are silently dropped; with an old one, they keep going to the
   * host that client was built for.
   */
  lemma EnableClientFaultKeepsOldClient(s: State, cfg: Config, msg: string, e: Records.Event)
    ensures var o := EnableCmd(s, Some(cfg), true, ClientFault(msg));
            && o.state.enabled && o.replies == [EnableFailed(msg)]
            && o.state.client == s.client
            && (!s.HasClient() ==> OnMessage(o.state, e).None?)
            && (s.HasClient() && Records.Normalize(e).Some? ==>
                  OnMessage(o.state, e).Some? && OnMessage(o.state, e).value.host == s.client.value)
  {
  }

  /** A plugin whose reload could not reach Elasticsearch is off but keeps its
      client, so a later `enable` whose client build raises still stores messages. */
  lemma ClientFaultCasesReachable(cfg: Config, probe: Probe, msg: string, e: Records.Event)
    requires Truthy(Lookup(cfg, EnabledKey, Bool(false)))
    requires probe == Unreachable || probe.ConnectFault?
    ensures var r := Initialize(Some(cfg), probe);
            var o := EnableCmd(r.state, r.file, true, ClientFault(msg));
            && !r.state.enabled && r.state.client == Some(r.state.esHost)
            && (Records.Normalize(e).Some? ==> OnMessage(o.state, e) == Some(Write(r.state.esHost, r.state.esIndex, Records.BuildRecord(e))))
  {
  }
}
