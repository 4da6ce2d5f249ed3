/** The panel's state: inbounds, clients and settings in memory, and the file they are saved to. */
module PanelStore {
  import opened Wire
  import opened Rows

  datatype Inbound = Inbound(id: string, name: string, listen: string, transport: string, enabled: bool, createdAt: int, description: string)
  datatype Client = Client(id: string, email: string, inboundID: string, expiresAt: int, enabled: bool, createdAt: int)

  datatype PanelSettings = PanelSettings(siteTitle: string, defaultLang: string, sessionHours: int, allowSignup: bool, timezone: string)
  datatype TransportSettings = TransportSettings(defaultInboundTransport: string, defaultPortTCP: int, defaultPortUDP: int,
                                                 enableTCP: bool, enableUDP: bool, enableFallback: bool)
  datatype ObfsSettings = ObfsSettings(enabled: bool, maxPadding: int, maxJitterMS: int)
  datatype SecuritySettings = SecuritySettings(enableIPLimit: bool, maxIPsPerClient: int, allowedCIDR: string, blockPrivateIPs: bool)
  datatype TrafficSettings = TrafficSettings(enableLimit: bool, defaultClientGB: int, resetEveryDays: int, enableAutoSuspend: bool)
  datatype Settings = Settings(panel: PanelSettings, transport: TransportSettings, obfs: ObfsSettings,
                               security: SecuritySettings, traffic: TrafficSettings)

  datatype State = State(inbounds: seq<Inbound>, clients: seq<Client>, settings: Settings)

  function InboundID(x: Inbound): string { x.id }
  function ClientID(x: Client): string { x.id }

  const DEFAULT_SETTINGS: Settings := Settings(
    PanelSettings("DarkSide Panel", "ru", 24, false, "UTC"),
    TransportSettings("tcp", 18443, 18080, true, true, true),
    ObfsSettings(true, 64, 25),
    SecuritySettings(false, 2, "0.0.0.0/0", false),
    TrafficSettings(false, 100, 30, false))

  const DEFAULT_STATE: State := State([], [], DEFAULT_SETTINGS)

  // ---------- defaults ----------

  function OrText(x: string, default: string): string {
    if x == "" then default else x
  }

  function OrNumber(x: int, default: int): int {
    if x == 0 then default else x
  }

  function PanelDefaults(p: PanelSettings): PanelSettings {
    var d := DEFAULT_SETTINGS.panel;
    PanelSettings(OrText(p.siteTitle, d.siteTitle), OrText(p.defaultLang, d.defaultLang), OrNumber(p.sessionHours, d.sessionHours),
                  p.allowSignup, OrText(p.timezone, d.timezone))
  }

  function TransportDefaults(t: TransportSettings): TransportSettings {
    var d := DEFAULT_SETTINGS.transport;
    var none := !t.enableTCP && !t.enableUDP;
    TransportSettings(OrText(t.defaultInboundTransport, d.defaultInboundTransport), OrNumber(t.defaultPortTCP, d.defaultPortTCP),
                      OrNumber(t.defaultPortUDP, d.defaultPortUDP), t.enableTCP || none, t.enableUDP || none, t.enableFallback)
  }

  function WithDefaults(s: Settings): Settings {
    var d := DEFAULT_SETTINGS;
    Settings(
      PanelDefaults(s.panel),
      TransportDefaults(s.transport),
      ObfsSettings(s.obfs.enabled, OrNumber(s.obfs.maxPadding, d.obfs.maxPadding), OrNumber(s.obfs.maxJitterMS, d.obfs.maxJitterMS)),
      SecuritySettings(s.security.enableIPLimit, OrNumber(s.security.maxIPsPerClient, d.security.maxIPsPerClient),
                       OrText(s.security.allowedCIDR, d.security.allowedCIDR), s.security.blockPrivateIPs),
      TrafficSettings(s.traffic.enableLimit, OrNumber(s.traffic.defaultClientGB, d.traffic.defaultClientGB),
                      OrNumber(s.traffic.resetEveryDays, d.traffic.resetEveryDays), s.traffic.enableAutoSuspend))
  }

  /** Nothing is left for the defaults to fill in. */
  predicate Normal(s: Settings) {
    && s.panel.siteTitle != "" && s.panel.defaultLang != "" && s.panel.sessionHours != 0 && s.panel.timezone != ""
    && s.transport.defaultInboundTransport != "" && s.transport.defaultPortTCP != 0 && s.transport.defaultPortUDP != 0
    && (s.transport.enableTCP || s.transport.enableUDP)
    && s.obfs.maxPadding != 0 && s.obfs.maxJitterMS != 0
    && s.security.maxIPsPerClient != 0 && s.security.allowedCIDR != ""
    && s.traffic.defaultClientGB != 0 && s.traffic.resetEveryDays != 0
  }

  /** The defaults are a fixpoint after one application, and leave alone exactly the normal settings. */
  lemma DefaultsAreFixpoint(s: Settings)
    ensures Normal(WithDefaults(s)) && WithDefaults(WithDefaults(s)) == WithDefaults(s)
    ensures WithDefaults(s) == s <==> Normal(s)
    ensures Normal(DEFAULT_SETTINGS)
  {
    assert |"DarkSide Panel"| > 0 && |"ru"| > 0 && |"UTC"| > 0 && |"tcp"| > 0 && |"0.0.0.0/0"| > 0;
  }

  /** Field by field: r is s with a blank text or a zero number replaced by that field's own default,
      every other text and number and every switch as given; the two transports are both turned on exactly
      when both are off. */
  predicate FilledFrom(s: Settings, r: Settings) {
    && r.panel.siteTitle == (if s.panel.siteTitle == "" then "DarkSide Panel" else s.panel.siteTitle)
    && r.panel.defaultLang == (if s.panel.defaultLang == "" then "ru" else s.panel.defaultLang)
    && r.panel.sessionHours == (if s.panel.sessionHours == 0 then 24 else s.panel.sessionHours)
    && r.panel.timezone == (if s.panel.timezone == "" then "UTC" else s.panel.timezone)
    && r.panel.allowSignup == s.panel.allowSignup
    && r.transport.defaultInboundTransport == (if s.transport.defaultInboundTransport == "" then "tcp" else s.transport.defaultInboundTransport)
    && r.transport.defaultPortTCP == (if s.transport.defaultPortTCP == 0 then 18443 else s.transport.defaultPortTCP)
    && r.transport.defaultPortUDP == (if s.transport.defaultPortUDP == 0 then 18080 else s.transport.defaultPortUDP)
    && (if s.transport.enableTCP || s.transport.enableUDP
        then r.transport.enableTCP == s.transport.enableTCP && r.transport.enableUDP == s.transport.enableUDP
        else r.transport.enableTCP && r.transport.enableUDP)
    && r.transport.enableFallback == s.transport.enableFallback
    && r.obfs.enabled == s.obfs.enabled
    && r.obfs.maxPadding == (if s.obfs.maxPadding == 0 then 64 else s.obfs.maxPadding)
    && r.obfs.maxJitterMS == (if s.obfs.maxJitterMS == 0 then 25 else s.obfs.maxJitterMS)
    && r.security.enableIPLimit == s.security.enableIPLimit && r.security.blockPrivateIPs == s.security.blockPrivateIPs
    && r.security.maxIPsPerClient == (if s.security.maxIPsPerClient == 0 then 2 else s.security.maxIPsPerClient)
    && r.security.allowedCIDR == (if s.security.allowedCIDR == "" then "0.0.0.0/0" else s.security.allowedCIDR)
    && r.traffic.enableLimit == s.traffic.enableLimit && r.traffic.enableAutoSuspend == s.traffic.enableAutoSuspend
    && r.traffic.defaultClientGB == (if s.traffic.defaultClientGB == 0 then 100 else s.traffic.defaultClientGB)
    && r.traffic.resetEveryDays == (if s.traffic.resetEveryDays == 0 then 30 else s.traffic.resetEveryDays)
  }

  /** Filling in defaults is field by field, and that determines it. */
  lemma DefaultsFieldByField(s: Settings, r: Settings)
    ensures FilledFrom(s, r) <==> r == WithDefaults(s)
  {
  }

  // ---------- the file ----------

  /** What the decoder finds in a state file; a JSON null leaves a list without a value. */
  datatype FileState = FileState(inbounds: Option<seq<Inbound>>, clients: Option<seq<Client>>, settings: Settings)

  datatype File = Missing | Blank | Garbled | Saved(content: FileState)

  /** A save succeeds, fails leaving the file as it was, fails having emptied or cut it, or fails only in
      closing the file it has written whole. */
  datatype SaveOutcome = Saves | FailsCleanly | FailsEmptied | FailsCut | FailsClosing

  function Encoded(s: State): File {
    Saved(FileState(Some(s.inbounds), Some(s.clients), s.settings))
  }

  function AfterSave(file: File, s: State, o: SaveOutcome): File {
    match o
    case Saves => Encoded(s)
    case FailsCleanly => file
    case FailsEmptied => Blank
    case FailsCut => Garbled
    case FailsClosing => Encoded(s)
  }

  function OrEmpty<T>(rows: Option<seq<T>>): seq<T> {
    if rows.Some? then rows.value else []
  }

  /** The state a new store takes from an existing file, or None when it refuses it. */
  function Loaded(file: File): Option<State> {
    match file
    case Missing => None
    case Blank => Some(DEFAULT_STATE)
    case Garbled => None
    case Saved(content) => Some(State(OrEmpty(content.inbounds), OrEmpty(content.clients), WithDefaults(content.settings)))
  }

  // ---------- operations on values ----------

  datatype Op =
    | UpsertInbound(inbound: Inbound)
    | DeleteInbound(id: string)
    | UpsertClient(client: Client)
    | DeleteClient(id: string)
    | UpdateSettings(settings: Settings)

  function Changed(s: State, op: Op): State {
    match op
    case UpsertInbound(x) => s.(inbounds := Upserted(InboundID, s.inbounds, x))
    case DeleteInbound(id) => s.(inbounds := Without(InboundID, s.inbounds, id))
    case UpsertClient(x) => s.(clients := Upserted(ClientID, s.clients, x))
    case DeleteClient(id) => s.(clients := Without(ClientID, s.clients, id))
    case UpdateSettings(settings) => s.(settings := WithDefaults(settings))
  }

  /** Updating the settings stores them with only their blanks filled, and touches no list. */
  lemma UpdateKeepsWhatIsSet(s: State, settings: Settings)
    ensures FilledFrom(settings, Changed(s, UpdateSettings(settings)).settings)
    ensures Changed(s, UpdateSettings(settings)) == s.(settings := Changed(s, UpdateSettings(settings)).settings)
  {
    DefaultsFieldByField(settings, WithDefaults(settings));
  }

  /** Loading a saved file takes its lists, empty where it has none, and its settings with only their
      blanks filled; an empty file gives the defaults; one that does not decode is refused. */
  lemma LoadKeepsWhatIsSet(content: FileState)
    ensures var loaded := Loaded(Saved(content));
      && loaded.Some? && FilledFrom(content.settings, loaded.value.settings)
      && loaded.value.inbounds == (if content.inbounds.Some? then content.inbounds.value else [])
      && loaded.value.clients == (if content.clients.Some? then content.clients.value else [])
    ensures Loaded(Blank) == Some(State([], [], DEFAULT_SETTINGS)) && Loaded(Garbled).None?
  {
    DefaultsFieldByField(content.settings, WithDefaults(content.settings));
  }

  /** The record of this id, if the list has one, is the one just given; every other record, every other
      list and the settings are as they were. */
  lemma ChangeIsLocal(s: State, op: Op, id: string)
    ensures var s' := Changed(s, op);
      match op
      case UpsertInbound(x) =>
        && s' == s.(inbounds := s'.inbounds)
        && Lookup(InboundID, s'.inbounds, id) == (if id == x.id then Some(x) else Lookup(InboundID, s.inbounds, id))
      case DeleteInbound(gone) =>
        && s' == s.(inbounds := s'.inbounds)
        && Lookup(InboundID, s'.inbounds, id) == (if id == gone then None else Lookup(InboundID, s.inbounds, id))
      case UpsertClient(x) =>
        && s' == s.(clients := s'.clients)
        && Lookup(ClientID, s'.clients, id) == (if id == x.id then Some(x) else Lookup(ClientID, s.clients, id))
      case DeleteClient(gone) =>
        && s' == s.(clients := s'.clients)
        && Lookup(ClientID, s'.clients, id) == (if id == gone then None else Lookup(ClientID, s.clients, id))
      case UpdateSettings(settings) => s' == s.(settings := s'.settings)
  {
    match op
    case UpsertInbound(x) => UpsertIsUpdate(InboundID, s.inbounds, x, id);
    case DeleteInbound(gone) => DeleteIsRemoval(InboundID, s.inbounds, gone, id);
    case UpsertClient(x) => UpsertIsUpdate(ClientID, s.clients, x, id);
    case DeleteClient(gone) => DeleteIsRemoval(ClientID, s.clients, gone, id);
    case UpdateSettings(_) =>
  }

  /** The store of a running process, if it has one, and the file. */
  datatype Panel = Panel(store: Option<State>, file: File)

  /** Opening a store: a missing file is created with the defaults, an existing one is loaded. */
  function Open(file: File, o: SaveOutcome): Panel {
    if file.Missing? then
      Panel(if o.Saves? then Some(DEFAULT_STATE) else None, AfterSave(file, DEFAULT_STATE, o))
    else
      Panel(Loaded(file), file)
  }

  datatype Event = Do(op: Op, outcome: SaveOutcome) | Restart(outcome: SaveOutcome)

  function Next(p: Panel, e: Event): Panel {
    match e
    case Restart(o) => Open(p.file, o)
    case Do(op, o) =>
      if p.store.None? then p
      else var s := Changed(p.store.value, op); Panel(Some(s), AfterSave(p.file, s, o))
  }

  /** The event returned without an error. */
  predicate Succeeds(p: Panel, e: Event) {
    match e
    case Restart(o) => Open(p.file, o).store.Some?
    case Do(_, o) => p.store.Some? && o.Saves?
  }

  // ---------- properties of runs ----------

  /** What every store in memory satisfies: its settings are normal. */
  ghost predicate Inv(p: Panel) {
    p.store.Some? ==> Normal(p.store.value.settings)
  }

  lemma NextKeepsInv(p: Panel, e: Event)
    requires Inv(p)
    ensures Inv(Next(p, e))
  {
    DefaultsAreFixpoint(DEFAULT_SETTINGS);
    if e.Restart? && p.file.Saved? { DefaultsAreFixpoint(p.file.content.settings); }
    if e.Do? && e.op.UpdateSettings? { DefaultsAreFixpoint(e.op.settings); }
  }

  /** Loading what a store saved gives back that store exactly: the defaults change nothing in it. */
  lemma ReloadIsExact(s: State)
    requires Normal(s.settings)
    ensures Loaded(Encoded(s)) == Some(s)
  {
    DefaultsAreFixpoint(s.settings);
  }

  /** After every event that returns without an error, loading the file gives exactly the memory. */
  lemma SuccessAgrees(p: Panel, e: Event)
    requires Inv(p) && Succeeds(p, e)
    ensures var p' := Next(p, e);
      p'.store.Some? && Loaded(p'.file) == p'.store
  {
    NextKeepsInv(p, e);
    if e.Do? || p.file.Missing? { ReloadIsExact(Next(p, e).store.value); }
  }

  function Run(p: Panel, es: seq<Event>): Panel
    decreases |es|
  {
    if |es| == 0 then p else Run(Next(p, es[0]), es[1..])
  }

  /** The memory at the last event that succeeded; `last` before any has. */
  function LastSuccess(p: Panel, es: seq<Event>, last: Option<State>): Option<State>
    decreases |es|
  {
    if |es| == 0 then last
    else LastSuccess(Next(p, es[0]), es[1..], if Succeeds(p, es[0]) then Next(p, es[0]).store else last)
  }

  predicate CleanFailures(es: seq<Event>) {
    |es| > 0 ==> (es[0].outcome.Saves? || es[0].outcome.FailsCleanly?) && CleanFailures(es[1..])
  }

  /** If failing saves leave the file alone, then on every run of changes, failed saves and restarts the
      file holds exactly the state of the last success: a restart brings that state back, and the next
      success saves every change made in memory since. */
  lemma {:induction false} FileHoldsLastSuccess(p: Panel, es: seq<Event>, last: State)
    requires Inv(p) && CleanFailures(es) && Loaded(p.file) == Some(last)
    ensures var p' := Run(p, es);
      && Inv(p') && Loaded(p'.file).Some? && Loaded(p'.file) == LastSuccess(p, es, Some(last))
      && Next(p', Restart(Saves)).store == LastSuccess(p, es, Some(last))
    decreases |es|
  {
    if |es| > 0 {
      NextKeepsInv(p, es[0]);
      if Succeeds(p, es[0]) {
        SuccessAgrees(p, es[0]);
        FileHoldsLastSuccess(Next(p, es[0]), es[1..], Next(p, es[0]).store.value);
      } else {
        FileHoldsLastSuccess(Next(p, es[0]), es[1..], last);
      }
    }
  }

  /** A change stays in memory whatever becomes of its save, and the next save that works writes it along
      with its own change, so that a restart then brings both back. */
  lemma FailedSaveIsMadeUp(p: Panel, op: Op, o: SaveOutcome, next: Op, restart: SaveOutcome)
    requires Inv(p) && p.store.Some?
    ensures Next(p, Do(op, o)).store == Some(Changed(p.store.value, op))
    ensures var p2 := Next(Next(p, Do(op, o)), Do(next, Saves));
      && p2.store == Some(Changed(Changed(p.store.value, op), next))
      && Next(p2, Restart(restart)) == p2
  {
    var p1 := Next(p, Do(op, o));
    NextKeepsInv(p, Do(op, o));
    NextKeepsInv(p1, Do(next, Saves));
    ReloadIsExact(Changed(Changed(p.store.value, op), next));
  }

  /** A failed save leaves what the file loads as unchanged exactly when it left the file alone, emptied a
      file that loaded as the defaults, or wrote whole the state that the file already loaded as. */
  lemma FailureKeepsFileIff(p: Panel, op: Op, o: SaveOutcome)
    requires Inv(p) && p.store.Some? && !o.Saves? && Loaded(p.file).Some?
    ensures Loaded(Next(p, Do(op, o)).file) == Loaded(p.file) <==>
            || o.FailsCleanly?
            || (o.FailsEmptied? && Loaded(p.file) == Some(DEFAULT_STATE))
            || (o.FailsClosing? && Loaded(p.file) == Some(Changed(p.store.value, op)))
  {
    NextKeepsInv(p, Do(op, o));
    ReloadIsExact(Changed(p.store.value, op));
  }

  ghost predicate UniqueState(s: State) {
    UniqueIds(InboundID, s.inbounds) && UniqueIds(ClientID, s.clients)
  }

  /** Ids stay unique through every run in which whatever is loaded has unique ids. */
  lemma {:induction false} RunKeepsUnique(p: Panel, es: seq<Event>)
    requires p.store.Some? ==> UniqueState(p.store.value)
    requires Loaded(p.file).Some? ==> UniqueState(Loaded(p.file).value)
    ensures Run(p, es).store.Some? ==> UniqueState(Run(p, es).store.value)
    decreases |es|
  {
    if |es| > 0 {
      if es[0].Do? && p.store.Some? { ChangeKeepsUnique(p.store.value, es[0].op); }
      RunKeepsUnique(Next(p, es[0]), es[1..]);
    }
  }

  lemma ChangeKeepsUnique(s: State, op: Op)
    requires UniqueState(s)
    ensures UniqueState(Changed(s, op))
  {
    match op
    case UpsertInbound(x) => UpsertKeepsUnique(InboundID, s.inbounds, x);
    case DeleteInbound(id) => DeleteKeepsUnique(InboundID, s.inbounds, id);
    case UpsertClient(x) => UpsertKeepsUnique(ClientID, s.clients, x);
    case DeleteClient(id) => DeleteKeepsUnique(ClientID, s.clients, id);
    case UpdateSettings(_) =>
  }

  // ---------- the store as the program has it ----------

  class Disk {
    var file: File

    constructor (file: File)
      ensures this.file == file
    {
      this.file := file;
    }
  }

  class Store {
    const disk: Disk
    const inbounds: Table<Inbound>
    const clients: Table<Client>
    var settings: Settings

    ghost function Repr(): set<object>
      reads this, inbounds, clients
    {
      {this, disk, inbounds, clients, inbounds.data, clients.data}
    }

    ghost predicate Valid()
      reads this, inbounds, clients
    {
      && inbounds.Valid() && clients.Valid() && inbounds.key == InboundID && clients.key == ClientID
      && Normal(settings)
    }

    ghost function View(): State
      requires Valid()
      reads this, inbounds, clients, inbounds.data, clients.data
    {
      State(inbounds.Contents(), clients.Contents(), settings)
    }

    /** A store with no rows and the default settings, before it looks at the file. */
    constructor (disk: Disk)
      ensures this.disk == disk && Valid() && fresh(Repr() - {disk}) && View() == DEFAULT_STATE
    {
      this.disk := disk;
      inbounds := new Table(InboundID);
      clients := new Table(ClientID);
      settings := DEFAULT_SETTINGS;
      new;
      DefaultsAreFixpoint(DEFAULT_SETTINGS);
    }

    /** Opens the store over a file: null, for the error the program returns, exactly when the file cannot
        be decoded or cannot be created; otherwise the state the file holds. */
    static method NewStore(disk: Disk, o: SaveOutcome) returns (s: Store?)
      modifies disk
      ensures disk.file == Open(old(disk.file), o).file
      ensures s == null <==> Open(old(disk.file), o).store.None?
      ensures s != null ==> s.disk == disk && s.Valid() && fresh(s.Repr() - {disk}) && Some(s.View()) == Open(old(disk.file), o).store
    {
      s := new Store(disk);
      var ok := s.Load(o);
      if !ok { s := null; }
    }

    method Load(o: SaveOutcome) returns (ok: bool)
      requires Valid() && View() == DEFAULT_STATE
      modifies Repr()
      ensures Valid() && fresh(Repr() - old(Repr()))
      ensures disk.file == Open(old(disk.file), o).file
      ensures ok == Open(old(disk.file), o).store.Some?
      ensures View() == if ok then Open(old(disk.file), o).store.value else DEFAULT_STATE
    {
      match disk.file {
        case Missing => ok := Save(o);
        case Blank => ok := true;
        case Garbled => ok := false;
        case Saved(content) =>
          inbounds.Load(OrEmpty(content.inbounds));
          clients.Load(OrEmpty(content.clients));
          settings := content.settings;
          ApplyDefaults();
          ok := true;
      }
    }

    method ApplyDefaults()
      modifies `settings
      ensures settings == WithDefaults(old(settings)) && Normal(settings)
    {
      DefaultsAreFixpoint(settings);
      FillPanel();
      FillTransport();
      FillLimits();
    }

    method FillPanel()
      modifies `settings
      ensures settings == old(settings).(panel := PanelDefaults(old(settings).panel))
    {
      var d := DEFAULT_SETTINGS.panel;
      if settings.panel.siteTitle == "" { settings := settings.(panel := settings.panel.(siteTitle := d.siteTitle)); }
      if settings.panel.defaultLang == "" { settings := settings.(panel := settings.panel.(defaultLang := d.defaultLang)); }
      if settings.panel.sessionHours == 0 { settings := settings.(panel := settings.panel.(sessionHours := d.sessionHours)); }
      if settings.panel.timezone == "" { settings := settings.(panel := settings.panel.(timezone := d.timezone)); }
    }

    method FillTransport()
      modifies `settings
      ensures settings == old(settings).(transport := TransportDefaults(old(settings).transport))
    {
      var d := DEFAULT_SETTINGS.transport;
      var t := settings.transport;
      if t.defaultInboundTransport == "" { t := t.(defaultInboundTransport := d.defaultInboundTransport); }
      if t.defaultPortTCP == 0 { t := t.(defaultPortTCP := d.defaultPortTCP); }
      if t.defaultPortUDP == 0 { t := t.(defaultPortUDP := d.defaultPortUDP); }
      if !t.enableTCP && !t.enableUDP { t := t.(enableTCP := d.enableTCP, enableUDP := d.enableUDP); }
      settings := settings.(transport := t);
    }

    method FillLimits()
      modifies `settings
      ensures settings == WithDefaults(old(settings)).(panel := old(settings).panel, transport := old(settings).transport)
    {
      var d := DEFAULT_SETTINGS;
      var o, s, f := settings.obfs, settings.security, settings.traffic;
      if o.maxPadding == 0 { o := o.(maxPadding := d.obfs.maxPadding); }
      if o.maxJitterMS == 0 { o := o.(maxJitterMS := d.obfs.maxJitterMS); }
      if s.maxIPsPerClient == 0 { s := s.(maxIPsPerClient := d.security.maxIPsPerClient); }
      if s.allowedCIDR == "" { s := s.(allowedCIDR := d.security.allowedCIDR); }
      if f.defaultClientGB == 0 { f := f.(defaultClientGB := d.traffic.defaultClientGB); }
      if f.resetEveryDays == 0 { f := f.(resetEveryDays := d.traffic.resetEveryDays); }
      settings := settings.(obfs := o, security := s, traffic := f);
    }

    method Save(o: SaveOutcome) returns (ok: bool)
      requires Valid()
      modifies disk
      ensures ok == o.Saves? && disk.file == AfterSave(old(disk.file), View(), o)
    {
      ok := o.Saves?;
      disk.file := AfterSave(disk.file, State(inbounds.Contents(), clients.Contents(), settings), o);
    }

    /** Each of the five operations changes the memory, then saves; the change stays when the save fails. */
    method Apply(op: Op, o: SaveOutcome) returns (ok: bool)
      requires Valid()
      modifies Repr()
      ensures Valid() && fresh(Repr() - old(Repr()))
      ensures ok == o.Saves? && View() == Changed(old(View()), op)
      ensures disk.file == Next(Panel(Some(old(View())), old(disk.file)), Do(op, o)).file
    {
      match op {
        case UpsertInbound(x) => inbounds.Upsert(x);
        case DeleteInbound(id) => inbounds.Delete(id);
        case UpsertClient(x) => clients.Upsert(x);
        case DeleteClient(id) => clients.Delete(id);
        case UpdateSettings(s) =>
          settings := s;
          ApplyDefaults();
      }
      ok := Save(o);
    }

    /** A snapshot shares no array with the store. */
    method Snapshot() returns (ins: array<Inbound>, cls: array<Client>, s: Settings)
      requires Valid()
      ensures fresh(ins) && fresh(cls)
      ensures State(ins[..], cls[..], s) == View()
    {
      ins := inbounds.Copy();
      cls := clients.Copy();
      s := settings;
    }

    /** No run of later operations changes a snapshot, while the store follows the machine. */
    method ApplyAll(ops: seq<(Op, SaveOutcome)>, snapIn: array<Inbound>, snapCl: array<Client>)
      requires Valid() && snapIn !in Repr() && snapCl !in Repr()
      modifies Repr()
      ensures Valid() && fresh(Repr() - old(Repr()))
      ensures snapIn[..] == old(snapIn[..]) && snapCl[..] == old(snapCl[..])
      ensures Panel(Some(View()), disk.file) == Run(Panel(Some(old(View())), old(disk.file)), Events(ops))
    {
      ghost var p := Panel(Some(View()), disk.file);
      var i := 0;
      while i < |ops|
        invariant 0 <= i <= |ops| && Valid() && fresh(Repr() - old(Repr()))
        invariant snapIn !in Repr() && snapCl !in Repr()
        invariant snapIn[..] == old(snapIn[..]) && snapCl[..] == old(snapCl[..])
        invariant Run(Panel(Some(View()), disk.file), Events(ops[i..])) == Run(p, Events(ops))
      {
        assert ops[i..][0] == ops[i] && ops[i..][1..] == ops[i + 1..];
        var _ := Apply(ops[i].0, ops[i].1);
        i := i + 1;
      }
    }
  }

  function Events(ops: seq<(Op, SaveOutcome)>): seq<Event> {
    if |ops| == 0 then [] else [Do(ops[0].0, ops[0].1)] + Events(ops[1..])
  }
}
