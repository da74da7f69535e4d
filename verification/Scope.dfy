/**
 Scopes and the identity behind a token: `parse_and_validate_scope`,
 `get_allowed_user_properties` and the checks of `exchange_token`.
 */
module Scope {
  import opened Basics

  datatype Group = Group(users: set<string>, properties: set<string>)

  datatype Vo = Vo(users: map<string, string>, groups: map<string, Group>, defaultGroup: string)

  type Config = map<string, Vo>

  datatype Error = ValueError | KeyError | NotRegistered | PermissionError

  datatype ParsedScope = ParsedScope(vo: string, group: string, properties: set<string>)

  // The user part of both token payloads.
  datatype Identity = Identity(
    sub: string, vo: string, group: string, properties: set<string>, preferredUsername: string)

  // `text.split(separator)`.
  function Split(text: string, separator: char): (pieces: seq<string>)
    ensures pieces != []
  {
    if text == [] then [""]
    else
      var rest := Split(text[1..], separator);
      if text[0] == separator then [""] + rest else [[text[0]] + rest[0]] + rest[1..]
  }

  lemma {:induction false} SplitPieces(text: string, separator: char)
    ensures forall p :: p in Split(text, separator) ==> separator !in p
  {
    if text != [] { SplitPieces(text[1..], separator); }
  }

  lemma {:induction false} SplitWhole(text: string, separator: char)
    requires separator !in text
    ensures Split(text, separator) == [text]
  {
    if text != [] {
      assert text == [text[0]] + text[1..];
      SplitWhole(text[1..], separator);
    }
  }

  function Join(pieces: seq<string>, separator: char): string
    requires pieces != []
  {
    if |pieces| == 1 then pieces[0] else pieces[0] + [separator] + Join(pieces[1..], separator)
  }

  /** Splitting loses nothing: no piece holds the separator, and joining the pieces gives the text back. */
  lemma {:induction false} SplitJoins(text: string, separator: char)
    ensures forall p :: p in Split(text, separator) ==> separator !in p
    ensures Join(Split(text, separator), separator) == text
  {
    SplitPieces(text, separator);
    if text != [] {
      var rest := Split(text[1..], separator);
      SplitJoins(text[1..], separator);
      assert text == [text[0]] + text[1..];
      if text[0] == separator {
        assert ([""] + rest)[1..] == rest;
      } else {
        assert ([[text[0]] + rest[0]] + rest[1..])[1..] == rest[1..];
      }
    }
  }

  // `text.split(":", 1)[1]`; None is the IndexError of a text without a colon.
  function AfterColon(text: string): Option<string> {
    if text == [] then None
    else if text[0] == ':' then Some(text[1..])
    else AfterColon(text[1..])
  }

  predicate StartsWith(text: string, prefix: string) { prefix <= text }

  function Pieces(scope: string): set<string> { set p | p in Split(scope, ' ') }

  // What the pieces with this prefix name.
  function Named(pieces: set<string>, prefix: string): set<string> {
    set p | p in pieces && StartsWith(p, prefix) :: p[|prefix|..]
  }

  lemma NamedAt(pieces: set<string>, prefix: string, name: string)
    ensures name in Named(pieces, prefix) <==> prefix + name in pieces
  {
    assert (prefix + name)[|prefix|..] == name;
    if name in Named(pieces, prefix) {
      var p :| p in pieces && StartsWith(p, prefix) && p[|prefix|..] == name;
      assert p == prefix + name;
    }
  }

  predicate Recognised(p: string) {
    StartsWith(p, "group:") || StartsWith(p, "property:") || StartsWith(p, "vo:")
  }

  /** A piece is understood exactly if it is one of these prefixes followed by a name, empty or not. */
  lemma RecognisedExactly(p: string)
    ensures Recognised(p) <==> exists name :: p == "group:" + name || p == "property:" + name || p == "vo:" + name
  {
    if StartsWith(p, "group:") { assert p == "group:" + p[6..]; }
    if StartsWith(p, "property:") { assert p == "property:" + p[9..]; }
    if StartsWith(p, "vo:") { assert p == "vo:" + p[3..]; }
  }

  // A scope names a VO if exactly one of its pieces does.
  predicate NamesVo(scope: string, vo: string) { Named(Pieces(scope), "vo:") == {vo} }

  // A VO with a space in its name cannot be asked for.
  predicate Nameable(vo: string) { ' ' !in vo }

  lemma NamedIsNameable(scope: string, vo: string)
    requires NamesVo(scope, vo)
    ensures Nameable(vo)
  {
    SplitPieces(scope, ' ');
    assert vo in Named(Pieces(scope), "vo:");
    var p :| p in Pieces(scope) && StartsWith(p, "vo:") && p[3..] == vo;
    assert p == p[..3] + vo;
  }

  /** The scope that names a VO and nothing else. */
  lemma NameableIsNamed(vo: string)
    requires Nameable(vo)
    ensures NamesVo("vo:" + vo, vo) && Pieces("vo:" + vo) == {"vo:" + vo}
  {
    var scope := "vo:" + vo;
    SplitWhole(scope, ' ');
    assert scope[3..] == vo;
    assert Pieces(scope) == {scope};
    assert StartsWith(scope, "vo:");
    assert Named({scope}, "vo:") == {vo};
  }

  /** What a scope must be to be accepted, and what it then stands for. */
  ghost predicate Accepted(scope: string, config: Config, available: set<string>, r: ParsedScope) {
    var groups := Named(Pieces(scope), "group:");
    && (forall p :: p in Pieces(scope) ==> Recognised(p))
    && NamesVo(scope, r.vo) && r.vo in config
    && (groups == {} ==> r.group == config[r.vo].defaultGroup)
    && (groups != {} ==> groups == {r.group})
    && r.group in config[r.vo].groups
    && r.properties == Named(Pieces(scope), "property:") + config[r.vo].groups[r.group].properties
    && r.properties <= available
  }

  // The element of a one-element set.
  ghost function Only(names: set<string>): (n: string)
    requires |names| == 1
    ensures names == {n}
  {
    var n :| n in names;
    assert |names - {n}| == 0 && names == (names - {n}) + {n};
    n
  }

  ghost function Parse(scope: string, config: Config, available: set<string>): Result<ParsedScope, Error> {
    var pieces := Pieces(scope);
    var vos, groups := Named(pieces, "vo:"), Named(pieces, "group:");
    if exists p :: p in pieces && !Recognised(p) then Err(ValueError)
    else if |vos| != 1 || Only(vos) !in config then Err(ValueError)
    else
      var vo := config[Only(vos)];
      if |groups| > 1 then Err(ValueError)
      else
        var group := if groups == {} then vo.defaultGroup else Only(groups);
        if group !in vo.groups then Err(if groups == {} then KeyError else ValueError)
        else
          var properties := Named(pieces, "property:") + vo.groups[group].properties;
          if properties <= available then Ok(ParsedScope(Only(vos), group, properties)) else Err(ValueError)
  }

  /** A scope is accepted exactly when some VO, group and properties fit it, and then only one does. */
  lemma ParseMeans(scope: string, config: Config, available: set<string>, r: ParsedScope)
    ensures Parse(scope, config, available) == Ok(r) <==> Accepted(scope, config, available, r)
  {
    var pieces := Pieces(scope);
    var vos, groups := Named(pieces, "vo:"), Named(pieces, "group:");
    if Accepted(scope, config, available, r) {
      assert vos == {r.vo} && |vos| == 1 && Only(vos) == r.vo;
      if groups != {} { assert groups == {r.group} && |groups| == 1; }
    }
  }

  ghost predicate Sorted(done: set<string>, groups: seq<string>, properties: seq<string>, vos: seq<string>) {
    && Lists(groups, Named(done, "group:"))
    && Lists(properties, Named(done, "property:"))
    && Lists(vos, Named(done, "vo:"))
  }

  lemma SortedGrows(done: set<string>, p: string, groups: seq<string>, properties: seq<string>, vos: seq<string>)
    requires Sorted(done, groups, properties, vos) && p !in done
    ensures Sorted(done + {p},
              if StartsWith(p, "group:") then groups + [p[6..]] else groups,
              if StartsWith(p, "property:") then properties + [p[9..]] else properties,
              if StartsWith(p, "vo:") then vos + [p[3..]] else vos)
    ensures StartsWith(p, "group:") ==> p[0] == 'g'
    ensures StartsWith(p, "property:") ==> p[0] == 'p'
    ensures StartsWith(p, "vo:") ==> p[0] == 'v'
  {
    NewName(done, p, "group:");
    NewName(done, p, "property:");
    NewName(done, p, "vo:");
  }

  // The loop over the pieces.
  method SortPieces(scopes: set<string>)
    returns (groups: seq<string>, properties: seq<string>, vos: seq<string>, unrecognised: seq<string>)
    ensures Sorted(scopes, groups, properties, vos)
    ensures forall p :: p in unrecognised <==> p in scopes && !Recognised(p)
  {
    groups, properties, vos, unrecognised := [], [], [], [];
    var todo := scopes;
    while todo != {}
      invariant todo <= scopes
      invariant Sorted(scopes - todo, groups, properties, vos)
      invariant forall p :: p in unrecognised <==> p in scopes - todo && !Recognised(p)
      decreases todo
    {
      var p :| p in todo;
      SortedGrows(scopes - todo, p, groups, properties, vos);
      assert scopes - (todo - {p}) == (scopes - todo) + {p};
      todo := todo - {p};
      if StartsWith(p, "group:") {
        groups := groups + [p[6..]];
      } else if StartsWith(p, "property:") {
        properties := properties + [p[9..]];
      } else if StartsWith(p, "vo:") {
        vos := vos + [p[3..]];
      } else {
        unrecognised := unrecognised + [p];
      }
    }
    assert scopes - todo == scopes;
  }

  method ParseAndValidateScope(scope: string, config: Config, available: set<string>)
    returns (r: Result<ParsedScope, Error>)
    ensures r == Parse(scope, config, available)
  {
    var groups, properties, vos, unrecognised := SortPieces(Pieces(scope));
    ListsSize(vos, Named(Pieces(scope), "vo:"));
    ListsSize(groups, Named(Pieces(scope), "group:"));
    if unrecognised != [] {
      assert unrecognised[0] in unrecognised;
      return Err(ValueError);
    }
    if |vos| != 1 { return Err(ValueError); }
    ListsOne(vos, Named(Pieces(scope), "vo:"));
    var vo := vos[0];
    if vo !in config { return Err(ValueError); }
    if |groups| > 1 { return Err(ValueError); }
    if |groups| == 1 { ListsOne(groups, Named(Pieces(scope), "group:")); }
    var group := if groups == [] then config[vo].defaultGroup else groups[0];
    if group !in config[vo].groups {
      return Err(if groups == [] then KeyError else ValueError);
    }
    var all := (set p | p in properties) + config[vo].groups[group].properties;
    assert (set p | p in properties) == Named(Pieces(scope), "property:");
    if !(all <= available) { return Err(ValueError); }
    r := Ok(ParsedScope(vo, group, all));
  }

  // A list that holds each name of a set once, in some order.
  ghost predicate Lists(names: seq<string>, all: set<string>) {
    (forall n :: n in names <==> n in all) && (forall i, j :: 0 <= i < j < |names| ==> names[i] != names[j])
  }

  lemma {:induction false} ListsSize(names: seq<string>, all: set<string>)
    requires Lists(names, all)
    ensures |names| == |all|
    decreases |names|
  {
    if names == [] {
      assert all == {};
    } else {
      var n := names[|names| - 1];
      var rest := names[..|names| - 1];
      assert names == rest + [n];
      ListsSize(rest, all - {n});
      assert all == (all - {n}) + {n};
    }
  }

  lemma ListsOne(names: seq<string>, all: set<string>)
    requires Lists(names, all) && |names| == 1
    ensures all == {names[0]}
  {
    assert names == [names[0]];
  }

  lemma NewName(done: set<string>, p: string, prefix: string)
    requires p !in done
    ensures Named(done + {p}, prefix) == Named(done, prefix) + (if StartsWith(p, prefix) then {p[|prefix|..]} else {})
    ensures StartsWith(p, prefix) ==> p[|prefix|..] !in Named(done, prefix)
  {
    if StartsWith(p, prefix) {
      forall q | q in done && StartsWith(q, prefix) ensures q[|prefix|..] != p[|prefix|..] {
        assert q == prefix + q[|prefix|..] && p == prefix + p[|prefix|..];
      }
    }
  }

  // ------------------------------------------------------------------
  // Properties and identities
  // ------------------------------------------------------------------

  // Every property of a group the user is in.
  ghost function AllowedProperties(vo: Vo, sub: string): set<string> {
    set g, p | g in vo.groups && sub in vo.groups[g].users && p in vo.groups[g].properties :: p
  }

  method GetAllowedUserProperties(vo: Vo, sub: string) returns (allowed: set<string>)
    ensures allowed == AllowedProperties(vo, sub)
  {
    allowed := {};
    var todo := vo.groups.Keys;
    while todo != {}
      invariant todo <= vo.groups.Keys
      invariant forall p :: p in allowed <==>
                  exists g :: g in vo.groups && g !in todo && sub in vo.groups[g].users && p in vo.groups[g].properties
      decreases todo
    {
      var g :| g in todo;
      todo := todo - {g};
      if sub in vo.groups[g].users {
        allowed := allowed + vo.groups[g].properties;
      }
    }
  }

  // The checks of `exchange_token`, up to the payload of the access token.
  ghost function Identify(scope: string, sub: string, config: Config, available: set<string>): Result<Identity, Error> {
    var parsed := Parse(scope, config, available);
    if parsed.Err? then Err(parsed.error)
    else
      ParseMeans(scope, config, available, parsed.value);
      var ParsedScope(name, group, properties) := parsed.value;
      var vo := config[name];
      if sub !in vo.users then Err(NotRegistered)
      else if sub !in vo.groups[group].users then Err(PermissionError)
      else if !(properties <= AllowedProperties(vo, sub)) then Err(PermissionError)
      else Ok(Identity(name + ":" + sub, name, group, properties, vo.users[sub]))
  }

  method ExchangeToken(scope: string, sub: string, config: Config, available: set<string>)
    returns (r: Result<Identity, Error>)
    ensures r == Identify(scope, sub, config, available)
  {
    var parsed := ParseAndValidateScope(scope, config, available);
    if parsed.Err? { return Err(parsed.error); }
    ParseMeans(scope, config, available, parsed.value);
    var ParsedScope(name, group, properties) := parsed.value;
    var vo := config[name];
    if sub !in vo.users { return Err(NotRegistered); }
    if sub !in vo.groups[group].users { return Err(PermissionError); }
    var allowed := GetAllowedUserProperties(vo, sub);
    if !(properties <= allowed) { return Err(PermissionError); }
    r := Ok(Identity(name + ":" + sub, name, group, properties, vo.users[sub]));
  }

  // Who may be given a token by a scope, and which.
  ghost predicate Entitled(scope: string, sub: string, config: Config, available: set<string>, id: Identity) {
    && Accepted(scope, config, available, ParsedScope(id.vo, id.group, id.properties))
    && var vo := config[id.vo];
       && sub in vo.users && sub in vo.groups[id.group].users
       && (forall p :: p in id.properties ==>
            exists g :: g in vo.groups && sub in vo.groups[g].users && p in vo.groups[g].properties)
       && id.sub == id.vo + ":" + sub && id.preferredUsername == vo.users[sub]
  }

  lemma IdentifyEntitled(scope: string, sub: string, config: Config, available: set<string>, id: Identity)
    ensures Identify(scope, sub, config, available) == Ok(id) <==> Entitled(scope, sub, config, available, id)
  {
    ParseMeans(scope, config, available, ParsedScope(id.vo, id.group, id.properties));
    if Entitled(scope, sub, config, available, id) || Identify(scope, sub, config, available) == Ok(id) {
      assert forall p :: p in id.properties ==> p in AllowedProperties(config[id.vo], sub);
    }
  }

  // One VO, one group or the default one, and nothing that is not understood.
  ghost predicate Asks(pieces: seq<string>, vo: string, group: string, defaultGroup: string) {
    && (forall p :: p in pieces ==>
         exists name :: p == "group:" + name || p == "property:" + name || p == "vo:" + name)
    && (forall name :: "vo:" + name in pieces <==> name == vo)
    && ((forall name :: "group:" + name in pieces <==> name == group)
        || (group == defaultGroup && forall name :: "group:" + name !in pieces))
  }

  /**
   A token is given exactly to a registered member of the group that the scope
   names, or else of the default one. It carries the properties of that group and
   those the scope asks for, each of which some group of the user must have.
   */
  lemma IdentifyExactly(scope: string, sub: string, config: Config, available: set<string>, id: Identity)
    ensures Identify(scope, sub, config, available) == Ok(id) <==>
            && id.vo in config && id.group in config[id.vo].groups
            && var vo, group, pieces := config[id.vo], config[id.vo].groups[id.group], Split(scope, ' ');
               && Asks(pieces, id.vo, id.group, vo.defaultGroup)
               && sub in vo.users && sub in group.users
               && (forall p :: p in id.properties <==> "property:" + p in pieces || p in group.properties)
               && (forall p :: p in id.properties ==> p in available)
               && (forall p :: p in id.properties ==>
                    exists g :: g in vo.groups && sub in vo.groups[g].users && p in vo.groups[g].properties)
               && id.sub == id.vo + ":" + sub && id.preferredUsername == vo.users[sub]
  {
    IdentifyEntitled(scope, sub, config, available, id);
    if id.vo in config && id.group in config[id.vo].groups {
      var pieces := Split(scope, ' ');
      AsksExactly(scope, id.vo, id.group, config[id.vo].defaultGroup);
      PropertiesExactly(scope, id.properties, config[id.vo].groups[id.group].properties);
    }
  }

  lemma AsksExactly(scope: string, vo: string, group: string, defaultGroup: string)
    ensures Asks(Split(scope, ' '), vo, group, defaultGroup) <==>
            && (forall p :: p in Pieces(scope) ==> Recognised(p))
            && NamesVo(scope, vo)
            && var groups := Named(Pieces(scope), "group:");
               groups == {group} || (groups == {} && group == defaultGroup)
  {
    AllRecognised(Split(scope, ' '));
    NamedOnly(Pieces(scope), "vo:", vo);
    NamedOnly(Pieces(scope), "group:", group);
  }

  lemma AllRecognised(pieces: seq<string>)
    ensures (forall p :: p in pieces ==> Recognised(p)) <==>
            forall p :: p in pieces ==>
              exists name :: p == "group:" + name || p == "property:" + name || p == "vo:" + name
  {
    forall p | p in pieces
      ensures Recognised(p) <==> exists name :: p == "group:" + name || p == "property:" + name || p == "vo:" + name
    {
      RecognisedExactly(p);
    }
  }

  lemma NamedOnly(pieces: set<string>, prefix: string, name: string)
    ensures Named(pieces, prefix) == {name} <==> forall n :: prefix + n in pieces <==> n == name
    ensures Named(pieces, prefix) == {} <==> forall n :: prefix + n !in pieces
  {
    forall n ensures n in Named(pieces, prefix) <==> prefix + n in pieces { NamedAt(pieces, prefix, n); }
  }

  lemma PropertiesExactly(scope: string, properties: set<string>, own: set<string>)
    ensures properties == Named(Pieces(scope), "property:") + own <==>
            forall p :: p in properties <==> "property:" + p in Split(scope, ' ') || p in own
  {
    forall p ensures p in Named(Pieces(scope), "property:") <==> "property:" + p in Split(scope, ' ') {
      NamedAt(Pieces(scope), "property:", p);
    }
  }

  ghost predicate SomeAccepted(scope: string, config: Config, available: set<string>) {
    exists r :: Accepted(scope, config, available, r)
  }

  // The scope names a VO and no group, and the default group of the VO does not exist.
  ghost predicate DefaultMissing(scope: string, config: Config) {
    && (forall p :: p in Pieces(scope) ==> Recognised(p))
    && Named(Pieces(scope), "group:") == {}
    && exists vo :: NamesVo(scope, vo) && vo in config && config[vo].defaultGroup !in config[vo].groups
  }

  /** Why no token is given: the scope first, then the registration, then the group and the properties. */
  lemma IdentifyFails(scope: string, sub: string, config: Config, available: set<string>)
    ensures var r := Identify(scope, sub, config, available);
            && (r == Err(KeyError) <==> DefaultMissing(scope, config))
            && (r == Err(ValueError) <==> !SomeAccepted(scope, config, available) && !DefaultMissing(scope, config))
            && (r == Err(NotRegistered) <==>
                 exists p :: Accepted(scope, config, available, p) && sub !in config[p.vo].users)
            && (r == Err(PermissionError) <==>
                 && (exists p :: Accepted(scope, config, available, p) && sub in config[p.vo].users)
                 && forall id :: !Entitled(scope, sub, config, available, id))
  {
    var r := Identify(scope, sub, config, available);
    var parsed := Parse(scope, config, available);
    ParseFails(scope, config, available);
    if parsed.Ok? {
      ParseMeans(scope, config, available, parsed.value);
      forall p | Accepted(scope, config, available, p) ensures p == parsed.value {
        ParseMeans(scope, config, available, p);
      }
      if r.Ok? {
        IdentifyEntitled(scope, sub, config, available, r.value);
      } else {
        forall id ensures !Entitled(scope, sub, config, available, id) {
          IdentifyEntitled(scope, sub, config, available, id);
        }
      }
    }
  }

  lemma ParseFails(scope: string, config: Config, available: set<string>)
    ensures Parse(scope, config, available).Ok? <==> SomeAccepted(scope, config, available)
    ensures Parse(scope, config, available) == Err(KeyError) <==> DefaultMissing(scope, config)
    ensures Parse(scope, config, available).Err? ==>
              Parse(scope, config, available).error in {KeyError, ValueError}
  {
    var r := Parse(scope, config, available);
    if r.Ok? { ParseMeans(scope, config, available, r.value); }
    if p :| Accepted(scope, config, available, p) { ParseMeans(scope, config, available, p); }
    if vo :| NamesVo(scope, vo) && vo in config {
      var vos := Named(Pieces(scope), "vo:");
      assert vos == {vo} && Only(vos) == vo;
    }
  }

  /** What a token says of its user. */
  lemma IdentifySound(scope: string, sub: string, config: Config, available: set<string>, id: Identity)
    requires Identify(scope, sub, config, available) == Ok(id)
    ensures NamesVo(scope, id.vo) && id.vo in config && id.sub == id.vo + ":" + sub
    ensures var vo := config[id.vo];
            && sub in vo.users && id.preferredUsername == vo.users[sub]
            && id.group in vo.groups && sub in vo.groups[id.group].users
            && (Named(Pieces(scope), "group:") == if "group:" + id.group in Pieces(scope) then {id.group} else {})
            && ("group:" + id.group !in Pieces(scope) ==> id.group == vo.defaultGroup)
            && id.properties == Named(Pieces(scope), "property:") + vo.groups[id.group].properties <= available
            && forall p :: p in id.properties ==>
                 exists g :: g in vo.groups && sub in vo.groups[g].users && p in vo.groups[g].properties
  {
    IdentifyEntitled(scope, sub, config, available, id);
    NamedAt(Pieces(scope), "group:", id.group);
  }

  // ------------------------------------------------------------------
  // The subject stored with a refresh token, and back
  // ------------------------------------------------------------------

  predicate ColonFree(text: string) { ':' !in text }

  /** Taking the VO off a stored subject gives the user back exactly when the VO has no colon. */
  lemma {:induction false} SubjectRoundTrip(vo: string, sub: string)
    ensures AfterColon(vo + ":" + sub) == Some(sub) <==> ColonFree(vo)
    ensures AfterColon(vo + ":" + sub).Some?
  {
    if vo == [] {
      assert vo + ":" + sub == ":" + sub;
      assert (":" + sub)[1..] == sub;
    } else {
      assert (vo + ":" + sub)[1..] == vo[1..] + ":" + sub;
      if vo[0] == ':' {
        assert |vo[1..] + ":" + sub| > |sub|;
      } else {
        SubjectRoundTrip(vo[1..], sub);
        assert vo == [vo[0]] + vo[1..];
      }
    }
  }

  // What comes before the first colon.
  function BeforeColon(text: string): string {
    if text == [] || text[0] == ':' then [] else [text[0]] + BeforeColon(text[1..])
  }

  lemma {:induction false} CutAtColon(text: string)
    ensures ColonFree(BeforeColon(text))
    ensures AfterColon(text) == None ==> ColonFree(text)
    ensures AfterColon(text).Some? ==> text == BeforeColon(text) + ":" + AfterColon(text).value
  {
    if text != [] {
      assert text == [text[0]] + text[1..];
      if text[0] != ':' { CutAtColon(text[1..]); }
    }
  }

  /** The rest of a text after its first colon, if it has one. */
  lemma AfterColonExactly(text: string, rest: string)
    ensures AfterColon(text) == Some(rest) <==> exists head :: ColonFree(head) && text == head + ":" + rest
    ensures AfterColon(text) == None <==> ColonFree(text)
  {
    CutAtColon(text);
    if head :| ColonFree(head) && text == head + ":" + rest { SubjectRoundTrip(head, rest); }
    if AfterColon(text).Some? { assert text[|BeforeColon(text)|] == ':'; }
  }
}
