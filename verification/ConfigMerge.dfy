/**
  Layered server configuration (adapter/config.ts, adapter/agent-plugin-provenance.ts).
  A server's entry is merged field by field from layers of rising precedence; a layer that
  changes the transport or the url drops the inherited fields bound to the old one, and a
  per-field mark says which values came verbatim from an Agent Plugin.
*/
module ConfigMerge {
  import opened Common

  datatype Field =
    | Command | Args | Env | Cwd | PluginDataDir | LiteralEnv | InheritEnv
    | Socket
    | Url | Headers | RequestHeadersCommand | CaFile | Auth
    | BearerToken | BearerTokenEnv | BearerTokenStore | OAuth | HttpTransport
    | Disabled
    | OtherField(name: string)

  /** A JSON value; what is neither a string nor a boolean is only compared. */
  datatype Value = Text(text: string) | Bool(value: bool) | Json(id: int)

  /** The own properties of an entry object, and the fields its provenance mark names. */
  datatype Entry = Entry(fields: map<Field, Value>, literal: set<Field>)

  const EMPTY := Entry(map[], {})
  const LITERAL_FIELDS: set<Field> := {Args, Env, Cwd, Headers}

  // ----- What a layer strips from the entry below it -----

  const COMMAND_STRIPS: set<Field> :=
    {Url, Headers, RequestHeadersCommand, CaFile, Auth, BearerToken, BearerTokenEnv, BearerTokenStore, OAuth,
     HttpTransport, Socket}
  const URL_STRIPS: set<Field> := {Command, Args, Env, Cwd, PluginDataDir, LiteralEnv, InheritEnv, Socket}
  const SOCKET_STRIPS: set<Field> :=
    {Command, Args, Env, Cwd, PluginDataDir, LiteralEnv, InheritEnv, Url, Headers, RequestHeadersCommand, CaFile, Auth,
     BearerToken, BearerTokenEnv, BearerTokenStore, OAuth, HttpTransport}
  const URL_BOUND_AUTH_FIELDS: set<Field> :=
    {Headers, BearerToken, BearerTokenEnv, BearerTokenStore, RequestHeadersCommand, CaFile}

  predicate IsText(e: Entry, f: Field) {
    f in e.fields && e.fields[f].Text?
  }

  function TransportStrips(def: Entry): set<Field> {
    if IsText(def, Command) then COMMAND_STRIPS
    else if IsText(def, Url) then URL_STRIPS
    else if IsText(def, Socket) then SOCKET_STRIPS
    else {}
  }

  predicate ChangesUrl(existing: Entry, def: Entry) {
    IsText(def, Url) && Lookup(existing.fields, Url) != Some(def.fields[Url])
  }

  predicate RefusesOAuth(e: Entry) {
    Lookup(e.fields, OAuth) == Some(Bool(false))
  }

  function UrlStrips(existing: Entry, def: Entry): set<Field> {
    if !ChangesUrl(existing, def) then {}
    else URL_BOUND_AUTH_FIELDS + if RefusesOAuth(existing) then {} else {OAuth}
  }

  function Strips(existing: Entry, def: Entry): set<Field> {
    TransportStrips(def) + UrlStrips(existing, def)
    + if Env in def.fields && Env in existing.literal && LiteralEnv !in def.fields then {LiteralEnv} else {}
  }

  // ----- Merging -----

  /** The fields whose values a plugin can give literally. */
  predicate CanBeLiteral(f: Field) {
    match f
    case Args | Env | Cwd | Headers => true
    case _ => false
  }

  /** The field is present and its value is a plugin's literal. */
  predicate Marked(e: Entry, f: Field) {
    f in e.fields && f in e.literal && CanBeLiteral(f)
  }

  /** mergeBuiltInAgentPluginEntries */
  function MergeMarked(base: Entry, next: Entry): Entry {
    Entry(base.fields + next.fields,
      set f | f in LITERAL_FIELDS && Marked(if f in next.fields then next else base, f))
  }

  function MergeEntry(existing: Option<Entry>, def: Entry): Entry {
    if existing.None? then MergeMarked(EMPTY, def)
    else MergeMarked(Entry(existing.value.fields - Strips(existing.value, def), existing.value.literal), def)
  }

  /** One server name in a base map and in the map merged onto it. */
  function MergeOption(existing: Option<Entry>, def: Option<Entry>): Option<Entry> {
    if def.None? then existing else Some(MergeEntry(existing, def.value))
  }

  /** cloneMcpConfig's entry: a structured clone loses the mark, which is put back for the fields it covers. */
  function CloneEntry(e: Entry): Entry {
    Entry(e.fields, set f | f in LITERAL_FIELDS && Marked(e, f))
  }

  /** for (const field of fields) delete entry[field] */
  method Delete(e: Entry, fields: set<Field>) returns (r: Entry)
    ensures r == e.(fields := e.fields - fields)
  {
    r := e;
    var todo := fields;
    while todo != {}
      invariant todo <= fields && r == e.(fields := e.fields - (fields - todo))
      decreases todo
    {
      var field :| field in todo;
      todo := todo - {field};
      r := r.(fields := r.fields - {field});
    }
  }

  /** mergeServerMaps */
  method MergeServerMaps(base: map<string, Entry>, next: map<string, Entry>) returns (merged: map<string, Entry>)
    ensures merged.Keys == base.Keys + next.Keys
    ensures forall name :: Lookup(merged, name) == MergeOption(Lookup(base, name), Lookup(next, name))
  {
    merged := base;
    var todo := next.Keys;
    while todo != {}
      invariant todo <= next.Keys
      invariant merged.Keys == base.Keys + (next.Keys - todo)
      invariant forall name | name in todo :: Lookup(merged, name) == Lookup(base, name)
      invariant forall name | name !in todo ::
        Lookup(merged, name) == MergeOption(Lookup(base, name), Lookup(next, name))
      decreases todo
    {
      var name :| name in todo;
      todo := todo - {name};
      var entry := MergeOne(Lookup(merged, name), next[name]);
      merged := merged[name := entry];
    }
  }

  /** The body of the loop: the branches that delete inherited fields, then the merge. */
  method MergeOne(existing: Option<Entry>, def: Entry) returns (r: Entry)
    ensures r == MergeEntry(existing, def)
  {
    if existing.None? {
      return MergeMarked(EMPTY, def);
    }
    var inherited := existing.value;
    var base := inherited;
    if IsText(def, Command) {
      base := Delete(base, COMMAND_STRIPS);
    } else if IsText(def, Url) {
      base := Delete(base, URL_STRIPS);
    } else if IsText(def, Socket) {
      base := Delete(base, SOCKET_STRIPS);
    }
    assert base.fields == inherited.fields - TransportStrips(def);
    if ChangesUrl(inherited, def) {
      base := Delete(base, URL_BOUND_AUTH_FIELDS);
      if Lookup(base.fields, OAuth) != Some(Bool(false)) {
        base := base.(fields := base.fields - {OAuth});
      }
      assert base.fields == inherited.fields - TransportStrips(def) - UrlStrips(inherited, def);
    }
    assert base.fields == inherited.fields - TransportStrips(def) - UrlStrips(inherited, def);
    if Env in def.fields && Env in inherited.literal && LiteralEnv !in def.fields {
      base := base.(fields := base.fields - {LiteralEnv});
    }
    assert base.fields == inherited.fields - Strips(inherited, def);
    return MergeMarked(base, def);
  }

  // ----- Merge trees -----

  /** How one server's layers are combined: any grouping of merges, with clones anywhere. */
  datatype Tree =
    | Layer(entry: Option<Entry>)
    | Merge(lower: Tree, higher: Tree)
    | Clone(tree: Tree)

  function Effective(t: Tree): Option<Entry> {
    match t
    case Layer(entry) => entry
    case Merge(lower, higher) => MergeOption(Effective(lower), Effective(higher))
    case Clone(tree) => if Effective(tree).None? then None else Some(CloneEntry(Effective(tree).value))
  }

  /** The same trees over whole configurations. */
  datatype Config =
    | Source(servers: map<string, Entry>)
    | MergeOf(base: Config, next: Config)
    | CloneOf(config: Config)

  function At(c: Config, name: string): Tree {
    match c
    case Source(servers) => Layer(Lookup(servers, name))
    case MergeOf(base, next) => Merge(At(base, name), At(next, name))
    case CloneOf(config) => Clone(At(config, name))
  }

  /** Loads a configuration tree bottom up; each server's entry is that of its own tree. */
  method Load(c: Config) returns (servers: map<string, Entry>)
    ensures forall name :: Lookup(servers, name) == Effective(At(c, name))
  {
    match c
    case Source(s) =>
      servers := s;
    case MergeOf(base, next) =>
      var lower := Load(base);
      var higher := Load(next);
      servers := MergeServerMaps(lower, higher);
    case CloneOf(config) =>
      var original := Load(config);
      servers := map name | name in original :: CloneEntry(original[name]);
  }

  // ----- Who supplied a field -----

  /** The layer whose value for f is in effect: the last to supply it, unless it was stripped since. */
  function Supplier(t: Tree, f: Field): Option<Entry> {
    match t
    case Layer(entry) => if entry.Some? && f in entry.value.fields then entry else None
    case Clone(tree) => Supplier(tree, f)
    case Merge(lower, higher) =>
      var existing, def := Effective(lower), Effective(higher);
      if def.None? then Supplier(lower, f)
      else if f in def.value.fields then Supplier(higher, f)
      else if existing.Some? && f in Strips(existing.value, def.value) then None
      else Supplier(lower, f)
  }

  /**
    A field is in effect exactly when a layer supplied it and none stripped it since; it then has
    that layer's value, and is a plugin literal exactly when that layer marked it so.
  */
  lemma {:induction false} EffectiveFieldIsItsSuppliers(t: Tree, f: Field)
    ensures var effective, supplier := Effective(t), Supplier(t, f);
      && (supplier.Some? <==> effective.Some? && f in effective.value.fields)
      && (supplier.Some? ==> f in supplier.value.fields && effective.value.fields[f] == supplier.value.fields[f])
      && (effective.Some? && Marked(effective.value, f) <==> supplier.Some? && Marked(supplier.value, f))
  {
    match t {
      case Layer(entry) =>
      case Clone(tree) => EffectiveFieldIsItsSuppliers(tree, f);
      case Merge(lower, higher) =>
        EffectiveFieldIsItsSuppliers(lower, f);
        EffectiveFieldIsItsSuppliers(higher, f);
    }
  }

  // ----- Credentials stay with their url -----

  /** A field whose value must not travel to another url: oauth only when it is not switched off. */
  predicate Credential(e: Entry, f: Field) {
    f in e.fields &&
      match f
      case Headers | BearerToken | BearerTokenEnv | BearerTokenStore | RequestHeadersCommand | CaFile => true
      case OAuth => e.fields[OAuth] != Bool(false)
      case _ => false
  }

  /** A layer that leaves an inherited credential alone: no new transport, and no other url. */
  predicate LetsThrough(existing: Entry, def: Entry) {
    && !IsText(def, Command)
    && (if IsText(def, Url) then Lookup(existing.fields, Url) == Some(def.fields[Url]) else !IsText(def, Socket))
  }

  /** Exactly when a layer lets an inherited credential through. */
  lemma CredentialSurvivesExactly(existing: Entry, def: Entry, f: Field)
    requires Credential(existing, f) && f !in def.fields
    ensures f in MergeEntry(Some(existing), def).fields <==> LetsThrough(existing, def)
  {
    assert f in COMMAND_STRIPS && f in SOCKET_STRIPS && f !in URL_STRIPS;
  }

  lemma {:induction false} CredentialKeepsItsUrl(t: Tree, f: Field)
    requires Effective(t).Some? && Credential(Effective(t).value, f)
    requires Supplier(t, f).Some? && IsText(Supplier(t, f).value, Url)
    ensures var e := Effective(t).value;
      Url in e.fields && (e.fields[Url].Text? ==> e.fields[Url] == Supplier(t, f).value.fields[Url])
  {
    match t {
      case Layer(entry) =>
      case Clone(tree) => CredentialKeepsItsUrl(tree, f);
      case Merge(lower, higher) =>
        var existing, def := Effective(lower), Effective(higher);
        if def.None? || f !in def.value.fields {
          if def.Some? {
            CredentialSurvivesExactly(existing.value, def.value, f);
          }
          CredentialKeepsItsUrl(lower, f);
        } else {
          CredentialKeepsItsUrl(higher, f);
        }
    }
  }

  /**
    For every merge tree: if the layer that supplied a credential in effect also supplied a url
    string, and the url in effect is a string, the two are the same.
  */
  lemma CredentialsAreSentOnlyToTheirUrl(t: Tree, f: Field)
    requires Effective(t).Some? && Credential(Effective(t).value, f) && IsText(Effective(t).value, Url)
    ensures Supplier(t, f).Some?
    ensures IsText(Supplier(t, f).value, Url) ==> Supplier(t, f).value.fields[Url] == Effective(t).value.fields[Url]
  {
    EffectiveFieldIsItsSuppliers(t, f);
    if IsText(Supplier(t, f).value, Url) {
      CredentialKeepsItsUrl(t, f);
    }
  }

  /** The url in effect where the value of f in effect entered: its layer's own, or the one it was merged onto. */
  function UrlWhenSupplied(t: Tree, f: Field): Option<Value> {
    match t
    case Layer(entry) => if entry.None? then None else Lookup(entry.value.fields, Url)
    case Clone(tree) => UrlWhenSupplied(tree, f)
    case Merge(lower, higher) =>
      var def := Effective(higher);
      if def.None? || f !in def.value.fields then UrlWhenSupplied(lower, f)
      else if Url in def.value.fields then UrlWhenSupplied(higher, f)
      else Lookup(MergeEntry(Effective(lower), def.value).fields, Url)
  }

  /**
    The same for credentials whose layer named no url: whatever url string is in effect in the
    end was already in effect where the credential came in.
  */
  lemma {:induction false} CredentialsStayWithTheUrlTheyMet(t: Tree, f: Field)
    requires Effective(t).Some? && Credential(Effective(t).value, f) && IsText(Effective(t).value, Url)
    ensures UrlWhenSupplied(t, f) == Some(Effective(t).value.fields[Url])
  {
    match t {
      case Layer(entry) =>
      case Clone(tree) => CredentialsStayWithTheUrlTheyMet(tree, f);
      case Merge(lower, higher) =>
        var existing, def := Effective(lower), Effective(higher);
        if def.None? || f !in def.value.fields {
          if def.Some? {
            CredentialSurvivesExactly(existing.value, def.value, f);
          }
          CredentialsStayWithTheUrlTheyMet(lower, f);
        } else if Url in def.value.fields {
          CredentialsStayWithTheUrlTheyMet(higher, f);
        }
    }
  }

  // ----- What an inherited field survives -----

  datatype Transport = Stdio | Http | UnixSocket

  /** The transport a field only makes sense with; None for the fields of every transport. */
  function BoundTo(f: Field): Option<Transport> {
    match f
    case Command | Args | Env | Cwd | PluginDataDir | LiteralEnv | InheritEnv => Some(Stdio)
    case Url | Headers | RequestHeadersCommand | CaFile | Auth => Some(Http)
    case BearerToken | BearerTokenEnv | BearerTokenStore | OAuth | HttpTransport => Some(Http)
    case Socket => Some(UnixSocket)
    case Disabled | OtherField(_) => None
  }

  /** The transport a layer chooses. */
  function Chooses(def: Entry): Option<Transport> {
    if IsText(def, Command) then Some(Stdio)
    else if IsText(def, Url) then Some(Http)
    else if IsText(def, Socket) then Some(UnixSocket)
    else None
  }

  /**
    An inherited field that a layer does not supply itself survives the merge exactly when the
    layer chooses no other transport than the field's, changes no url the field is bound to, and
    does not replace an environment that came literally from a plugin.
  */
  lemma InheritedFieldSurvivesExactly(existing: Entry, def: Entry, f: Field)
    requires f in existing.fields && f !in def.fields
    ensures f in MergeEntry(Some(existing), def).fields <==>
      && (Chooses(def).Some? && BoundTo(f).Some? ==> BoundTo(f) == Chooses(def))
      && !(IsText(def, Url) && Lookup(existing.fields, Url) != Lookup(def.fields, Url) && Credential(existing, f))
      && !(f == LiteralEnv && Env in def.fields && Env in existing.literal)
  {
    TransportStripsExactly(def, f);
    UrlStripsExactly(existing, def, f);
  }

  lemma TransportStripsExactly(def: Entry, f: Field)
    ensures f in TransportStrips(def) <==> Chooses(def).Some? && BoundTo(f).Some? && BoundTo(f) != Chooses(def)
  {
    assert f in COMMAND_STRIPS <==> BoundTo(f) in {Some(Http), Some(UnixSocket)};
    assert f in URL_STRIPS <==> BoundTo(f) in {Some(Stdio), Some(UnixSocket)};
    assert f in SOCKET_STRIPS <==> BoundTo(f) in {Some(Stdio), Some(Http)};
  }

  lemma UrlStripsExactly(existing: Entry, def: Entry, f: Field)
    requires f in existing.fields
    ensures f in UrlStrips(existing, def) <==>
      IsText(def, Url) && Lookup(existing.fields, Url) != Lookup(def.fields, Url) && Credential(existing, f)
  {
  }

  /**
    A layer with another url string carries over none of these fields from below; oauth it carries
    over only where it is the word false.
  */
  lemma UrlChangeDropsCredentials(existing: Entry, def: Entry, url: string)
    requires Lookup(def.fields, Url) == Some(Text(url)) && Lookup(existing.fields, Url) != Some(Text(url))
    ensures forall f | f in {Headers, BearerToken, BearerTokenEnv, BearerTokenStore, RequestHeadersCommand, CaFile} ::
      Lookup(MergeEntry(Some(existing), def).fields, f) == Lookup(def.fields, f)
    ensures OAuth !in def.fields && OAuth in MergeEntry(Some(existing), def).fields ==>
      existing.fields[OAuth] == Bool(false)
    ensures Lookup(existing.fields, OAuth) == Some(Bool(false)) && !IsText(def, Command) && OAuth !in def.fields ==>
      Lookup(MergeEntry(Some(existing), def).fields, OAuth) == Some(Bool(false))
  {
  }

  /** Which of the four fields a merge leaves marked: those whose value comes from a layer that had marked it. */
  lemma MergedMarksExactly(existing: Entry, def: Entry, f: Field)
    requires f in {Args, Env, Cwd, Headers}
    ensures var merged := MergeEntry(Some(existing), def);
      f in merged.literal <==>
        if f in def.fields then f in def.literal else f in merged.fields && f in existing.literal
    ensures f in CloneEntry(existing).literal <==> f in existing.fields && f in existing.literal
  {
  }

  // ----- One transport -----

  /** At most one of command, url and socket is a string. */
  predicate OneTransport(e: Entry) {
    && !(IsText(e, Command) && IsText(e, Url))
    && !(IsText(e, Command) && IsText(e, Socket))
    && !(IsText(e, Url) && IsText(e, Socket))
  }

  predicate LayersHaveOneTransport(t: Tree) {
    match t
    case Layer(entry) => entry.Some? ==> OneTransport(entry.value)
    case Merge(lower, higher) => LayersHaveOneTransport(lower) && LayersHaveOneTransport(higher)
    case Clone(tree) => LayersHaveOneTransport(tree)
  }

  lemma {:induction false} EffectiveHasOneTransport(t: Tree)
    requires LayersHaveOneTransport(t)
    ensures Effective(t).Some? ==> OneTransport(Effective(t).value)
  {
    match t {
      case Layer(entry) =>
      case Clone(tree) => EffectiveHasOneTransport(tree);
      case Merge(lower, higher) =>
        EffectiveHasOneTransport(lower);
        EffectiveHasOneTransport(higher);
    }
  }
}
