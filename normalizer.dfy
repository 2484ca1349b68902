/**
 * `IPLookup.parse_data` (app.py:43-119): maps an RDAP IP-network response
 * (RFC 9083, section 5.4) onto a fixed-shape record. Every field is read
 * once, with a default (a placeholder, `None` or `[]`). Only the top-level
 * dates, the entities list, and each entity's four contact fields, two dates
 * and remark are overwritten later: by the events loops, the entities loop,
 * the jCard loop and the entity's `remarks` check. The unguarded accesses of
 * the source raise, as in Python.
 */
module Normalizer {
  import opened PyJson

  const NotProvided := "*not provided*"
  const NotAvailable := "N/A"

  /** The default of `data.get('remarks', ...)`: one remark with one placeholder line. */
  const DefaultRemarks := JArray([JObject([("description", JArray([JString(NotProvided)]))])])
  /** The default of `data.get('links', ...)`: one link whose href is the placeholder. */
  const DefaultLinks := JArray([JObject([("href", JString(NotProvided))])])

  datatype Network = Network(
    range: string,
    sourceRegistry: string,
    netRange: string,
    cidr: string,
    name: Json,
    handle: Json,
    parent: string,
    netType: Json,
    originAs: string)

  /** `registration` and `last_changed`; Python's `None` is `JNull`. */
  datatype Dates = Dates(registration: Json, lastChanged: Json)

  datatype Links = Links(self: Json, related: string, port43Whois: Json)

  /** One contact entity (RFC 9083, section 5.1) with its jCard already decoded. */
  datatype Entity = Entity(
    kind: Json,
    fullName: Json,
    handle: Json,
    email: seq<Json>,
    telephone: seq<Json>,
    address: string,
    roles: Json,
    registration: Json,
    lastChanged: Json,
    remarks: Json,
    self: Json,
    port43Whois: string)

  datatype Record = Record(network: Network, dates: Dates, description: Json, links: Links, entities: seq<Entity>)

  // ---------------------------------------------------------------------------
  // The result literal (app.py:44-67)

  /** `remarks[0]['description'][0]`: the first line of the first remark (RFC 9083, section 4.3). */
  function FirstDescription(remarks: Json): Result<Json> {
    var first :- Index(remarks, 0);
    var description :- Subscript(first, "description");
    Index(description, 0)
  }

  /** `links[0].get('href', '*not provided*')` (RFC 9083, section 4.2). */
  function FirstHref(links: Json): Result<Json> {
    var first :- Index(links, 0);
    DictGet(first, "href", JString(NotProvided))
  }

  /** `f"{start} - {end}"` with `N/A` for a missing address. */
  function AddressRange(members: seq<(string, Json)>, show: Json -> string): string {
    Str(Get(members, "startAddress", JString(NotAvailable)), show) + " - " +
    Str(Get(members, "endAddress", JString(NotAvailable)), show)
  }

  /** `port43.split('.')[1].upper()`: the registry label of a whois host name such as `whois.arin.net`. */
  function SourceRegistry(port43: Json): Result<string> {
    if !port43.JString? then Raise(AttributeError)
    else
      var labels := Split(port43.s, '.');
      if |labels| < 2 then Raise(IndexError) else Ok(Upper(labels[1]))
  }

  /** `f"{cidr['v4prefix']}/{cidr['length']}"` for one `cidr0_cidrs` entry. */
  function RenderCidr(entry: Json, show: Json -> string): Result<string> {
    var prefix :- Subscript(entry, "v4prefix");
    var length :- Subscript(entry, "length");
    Ok(Str(prefix, show) + "/" + Str(length, show))
  }

  /** The list comprehension over the `cidr0_cidrs` entries: the first entry that raises stops it. */
  function RenderCidrs(entries: seq<Json>, show: Json -> string): (r: Result<seq<string>>)
    ensures r.Ok? <==> forall i :: 0 <= i < |entries| ==> RenderCidr(entries[i], show).Ok?
    ensures r.Ok? ==>
      (|r.value| == |entries| && forall i :: 0 <= i < |entries| ==> Ok(r.value[i]) == RenderCidr(entries[i], show))
    decreases |entries|
  {
    if entries == [] then Ok([])
    else
      var block :- RenderCidr(entries[0], show);
      var blocks :- RenderCidrs(entries[1..], show);
      Ok([block] + blocks)
  }

  /** `', '.join(...)` of the rendered `cidr0_cidrs` entries. */
  function CidrList(cidrs: Json, show: Json -> string): Result<string> {
    var entries :- Iterate(cidrs);
    var blocks :- RenderCidrs(entries, show);
    Ok(Join(", ", blocks))
  }

  /** The label is found exactly when the whois host is a string with at least one dot. */
  lemma SourceRegistryNeedsDot(port43: Json)
    ensures SourceRegistry(port43).Ok? <==> port43.JString? && '.' in port43.s
  {
    if port43.JString? {
      SplitPieces(port43.s, '.');
    }
  }

  /** For `first.registry.rest`, the label is `registry`, upper-cased: `whois.arin.net` gives `ARIN`. */
  lemma SourceRegistryOfHost(first: string, registry: string, rest: string)
    requires '.' !in first && '.' !in registry
    requires rest == [] || rest[0] == '.'
    ensures SourceRegistry(JString(first + "." + registry + rest)) == Ok(Upper(registry))
  {
    assert first + "." + registry + rest == first + ['.'] + (registry + rest);
    SplitAfter(first, registry + rest, '.');
    SplitFirst(registry, rest, '.');
  }

  /**
   * An array of `cidr0_cidrs` entries renders exactly when every entry is a
   * dict with `v4prefix` and `length` (an IPv6 entry, which has `v6prefix`,
   * raises KeyError); the result joins `prefix/length` for each entry, in order.
   */
  lemma CidrBlocks(entries: seq<Json>, show: Json -> string)
    ensures CidrList(JArray(entries), show).Ok? <==>
      forall i :: 0 <= i < |entries| ==>
        entries[i].JObject? && HasKey(entries[i].members, "v4prefix") && HasKey(entries[i].members, "length")
    ensures CidrList(JArray(entries), show).Ok? ==>
      exists blocks: seq<string> ::
        && |blocks| == |entries|
        && (forall i :: 0 <= i < |entries| ==>
              entries[i].JObject? &&
              blocks[i] == Str(Member(entries[i].members, "v4prefix"), show) + "/" + Str(Member(entries[i].members, "length"), show))
        && CidrList(JArray(entries), show).value == Join(", ", blocks)
  {
    forall i | 0 <= i < |entries| {
      CidrEntry(entries[i], show);
    }
    var r := RenderCidrs(entries, show);
    if r.Ok? {
      var blocks := r.value;
      assert forall i :: 0 <= i < |entries| ==> Ok(blocks[i]) == RenderCidr(entries[i], show);
    }
  }

  /** One `cidr0_cidrs` entry renders exactly when it is a dict with `v4prefix` and `length`. */
  lemma CidrEntry(entry: Json, show: Json -> string)
    ensures RenderCidr(entry, show).Ok? <==>
      entry.JObject? && HasKey(entry.members, "v4prefix") && HasKey(entry.members, "length")
    ensures RenderCidr(entry, show).Ok? ==>
      RenderCidr(entry, show).value ==
        Str(Member(entry.members, "v4prefix"), show) + "/" + Str(Member(entry.members, "length"), show)
  {
  }

  /** The `result` literal, evaluated key by key in source order. */
  function Skeleton(members: seq<(string, Json)>, show: Json -> string): (r: Result<Record>)
    ensures r.Ok? ==> r.value.dates == Dates(JNull, JNull) && r.value.entities == []
  {
    var range := AddressRange(members, show);
    var registry :- if HasKey(members, "port43") then SourceRegistry(Get(members, "port43", JString(""))) else Ok(NotAvailable);
    var cidr :- if HasKey(members, "cidr0_cidrs") then CidrList(Get(members, "cidr0_cidrs", JArray([])), show) else Ok(NotAvailable);
    var description :- FirstDescription(Get(members, "remarks", DefaultRemarks));
    var self :- FirstHref(Get(members, "links", DefaultLinks));
    var network := Network(
      range, registry, range, cidr,
      Get(members, "name", JString(NotProvided)),
      Get(members, "handle", JString(NotProvided)),
      NotProvided,
      Get(members, "type", JString(NotProvided)),
      NotProvided);
    Ok(Record(network, Dates(JNull, JNull), description,
              Links(self, NotProvided, Get(members, "port43", JString(NotProvided))), []))
  }

  // ---------------------------------------------------------------------------
  // The events loop (app.py:70-75, and the same loop for an entity at 107-112)

  function EventDate(event: Json): Result<Json> { Subscript(event, "eventDate") }

  /** The event's `eventAction` is `action` (RFC 9083, section 4.5). */
  predicate HasAction(event: Json, action: string) {
    event.JObject? && Lookup(event.members, "eventAction") == Some(JString(action))
  }

  predicate IsRegistration(event: Json) { HasAction(event, "registration") }

  predicate IsLastChanged(event: Json) { HasAction(event, "last changed") }

  /** An event the loop body raises on: no `eventAction`, or a date action without `eventDate`. */
  predicate UnreadableEvent(event: Json) {
    Subscript(event, "eventAction").Raise? ||
    ((IsRegistration(event) || IsLastChanged(event)) && EventDate(event).Raise?)
  }

  /** The body of the events loop. */
  function ApplyEvent(event: Json, dates: Dates): Result<Dates> {
    var action :- Subscript(event, "eventAction");
    if action == JString("registration") then
      var date :- Subscript(event, "eventDate");
      Ok(dates.(registration := date))
    else if action == JString("last changed") then
      var date :- Subscript(event, "eventDate");
      Ok(dates.(lastChanged := date))
    else Ok(dates)
  }

  function Registration(dates: Dates): Json { dates.registration }

  function LastChanged(dates: Dates): Json { dates.lastChanged }

  /** The events loop, starting from `dates`. */
  function ScanEvents(events: seq<Json>, dates: Dates): Result<Dates> {
    Fold(events, dates, ApplyEvent)
  }

  method CollectDates(events: seq<Json>, init: Dates) returns (r: Result<Dates>)
    ensures r == ScanEvents(events, init)
  {
    var dates := init;
    for i := 0 to |events|
      invariant Fold(events[..i], init, ApplyEvent) == Ok(dates)
    {
      FoldNext(events, init, ApplyEvent, i);
      var event := events[i];
      var action := Subscript(event, "eventAction");
      if action.Raise? {
        FoldStops(events, init, ApplyEvent, i + 1);
        return Raise(action.error);
      }
      if action.value == JString("registration") || action.value == JString("last changed") {
        var date := Subscript(event, "eventDate");
        if date.Raise? {
          FoldStops(events, init, ApplyEvent, i + 1);
          return Raise(date.error);
        }
        if action.value == JString("registration") {
          dates := dates.(registration := date.value);
        } else {
          dates := dates.(lastChanged := date.value);
        }
      }
    }
    assert events[..|events|] == events;
    return Ok(dates);
  }

  /**
   * The events loop completes exactly when every event is readable; then each
   * date is that of the last event with its action, or stays as it was when
   * there is none. All other actions are ignored.
   */
  lemma EventsLastWins(events: seq<Json>, init: Dates)
    ensures ScanEvents(events, init).Ok? <==> forall i :: 0 <= i < |events| ==> !UnreadableEvent(events[i])
    ensures ScanEvents(events, init).Ok? ==>
      && LastWins(events, IsRegistration, EventDate, init.registration, ScanEvents(events, init).value.registration)
      && LastWins(events, IsLastChanged, EventDate, init.lastChanged, ScanEvents(events, init).value.lastChanged)
  {
    FoldCompletes(events, init, ApplyEvent, UnreadableEvent);
    if ScanEvents(events, init).Ok? {
      FoldLastWins(events, init, ApplyEvent, Registration, IsRegistration, EventDate);
      FoldLastWins(events, init, ApplyEvent, LastChanged, IsLastChanged, EventDate);
    }
  }

  // ---------------------------------------------------------------------------
  // The jCard loop (app.py:95-105; RFC 7095, section 3.3, and RFC 6350, section 6)

  /** `item[0] == name`: the jCard property's name. */
  predicate IsProperty(item: Json, name: string) { Index(item, 0) == Ok(JString(name)) }

  predicate IsFn(item: Json) { IsProperty(item, "fn") }

  predicate IsEmail(item: Json) { IsProperty(item, "email") }

  predicate IsTel(item: Json) { IsProperty(item, "tel") }

  predicate IsAdr(item: Json) { IsProperty(item, "adr") }

  predicate IsDecoded(item: Json) { IsFn(item) || IsEmail(item) || IsTel(item) || IsAdr(item) }

  /** `item[3]`: the jCard property's value. */
  function CardValue(item: Json): Result<Json> { Index(item, 3) }

  /** `', '.join(filter(None, value))`: the non-empty ADR components (RFC 6350, section 6.3.1). */
  function JoinedAddress(value: Json): Result<string> {
    var parts :- Iterate(value);
    JoinStrings(", ", KeepTruthy(parts))
  }

  /** The address an ADR item sets. */
  function AdrValue(item: Json): Result<string> {
    var value :- CardValue(item);
    JoinedAddress(value)
  }

  /**
   * An ADR value that is a list of strings always joins: the result is its
   * non-empty components, in order, separated by `", "`.
   */
  lemma AddressComponents(parts: seq<Json>)
    requires AllStrings(parts)
    ensures AllStrings(KeepTruthy(parts))
    ensures JoinedAddress(JArray(parts)) == Ok(Join(", ", Texts(KeepTruthy(parts))))
    ensures forall t :: t in Texts(KeepTruthy(parts)) ==> t != "" && JString(t) in parts
  {
    KeepTruthyMembers(parts);
    var kept := KeepTruthy(parts);
    assert forall i :: 0 <= i < |kept| ==> kept[i] in kept;
    forall t | t in Texts(kept) ensures t != "" && JString(t) in parts {
      var i :| 0 <= i < |kept| && Texts(kept)[i] == t;
      assert kept[i] in kept;
    }
  }

  /** An item the loop body raises on. */
  predicate UnreadableItem(item: Json) {
    Index(item, 0).Raise? ||
    (IsDecoded(item) && CardValue(item).Raise?) ||
    (IsAdr(item) && AdrValue(item).Raise?)
  }

  /** The body of the jCard loop: dispatch on the property name; unknown names change nothing. */
  function ApplyCardItem(item: Json, entity: Entity): Result<Entity> {
    var name :- Index(item, 0);
    if name == JString("fn") then
      var value :- Index(item, 3);
      Ok(entity.(fullName := value))
    else if name == JString("email") then
      var value :- Index(item, 3);
      Ok(entity.(email := entity.email + [value]))
    else if name == JString("tel") then
      var value :- Index(item, 3);
      Ok(entity.(telephone := entity.telephone + [value]))
    else if name == JString("adr") then
      var value :- Index(item, 3);
      var address :- JoinedAddress(value);
      Ok(entity.(address := address))
    else Ok(entity)
  }

  function FullName(entity: Entity): Json { entity.fullName }

  function Emails(entity: Entity): seq<Json> { entity.email }

  function Telephones(entity: Entity): seq<Json> { entity.telephone }

  function Address(entity: Entity): string { entity.address }

  /** Everything of an entity except the four fields the jCard loop writes. */
  function NonContact(entity: Entity): Entity {
    entity.(fullName := JNull, email := [], telephone := [], address := "")
  }

  /** The jCard loop over the items of `vcardArray[1]`, starting from `entity`. */
  function ScanCard(items: seq<Json>, entity: Entity): Result<Entity> {
    Fold(items, entity, ApplyCardItem)
  }

  method DecodeCard(items: seq<Json>, init: Entity) returns (r: Result<Entity>)
    ensures r == ScanCard(items, init)
  {
    var entity := init;
    for i := 0 to |items|
      invariant Fold(items[..i], init, ApplyCardItem) == Ok(entity)
    {
      FoldNext(items, init, ApplyCardItem, i);
      var item := items[i];
      var name := Index(item, 0);
      if name.Raise? {
        FoldStops(items, init, ApplyCardItem, i + 1);
        return Raise(name.error);
      }
      if name.value in [JString("fn"), JString("email"), JString("tel"), JString("adr")] {
        var value := Index(item, 3);
        if value.Raise? {
          FoldStops(items, init, ApplyCardItem, i + 1);
          return Raise(value.error);
        }
        if name.value == JString("fn") {
          entity := entity.(fullName := value.value);
        } else if name.value == JString("email") {
          entity := entity.(email := entity.email + [value.value]);
        } else if name.value == JString("tel") {
          entity := entity.(telephone := entity.telephone + [value.value]);
        } else {
          var address := JoinedAddress(value.value);
          if address.Raise? {
            FoldStops(items, init, ApplyCardItem, i + 1);
            return Raise(address.error);
          }
          entity := entity.(address := address.value);
        }
      }
    }
    assert items[..|items|] == items;
    return Ok(entity);
  }

  lemma CardStepRaises()
    ensures RaisesOnlyOn(ApplyCardItem, UnreadableItem)
  {
    forall x, s ensures ApplyCardItem(x, s).Raise? <==> UnreadableItem(x) {
    }
  }

  lemma CardStepOverwrites()
    ensures Overwrites(ApplyCardItem, FullName, IsFn, CardValue)
    ensures Overwrites(ApplyCardItem, Address, IsAdr, AdrValue)
  {
    forall x, s | ApplyCardItem(x, s).Ok?
      ensures if IsFn(x) then CardValue(x) == Ok(FullName(ApplyCardItem(x, s).value))
              else FullName(ApplyCardItem(x, s).value) == FullName(s)
    {
    }
    forall x, s | ApplyCardItem(x, s).Ok?
      ensures if IsAdr(x) then AdrValue(x) == Ok(Address(ApplyCardItem(x, s).value))
              else Address(ApplyCardItem(x, s).value) == Address(s)
    {
    }
  }

  lemma CardStepAppends()
    ensures Appends(ApplyCardItem, Emails, IsEmail, CardValue)
    ensures Appends(ApplyCardItem, Telephones, IsTel, CardValue)
    ensures Keeps(ApplyCardItem, NonContact)
  {
  }

  /**
   * The jCard loop completes exactly when every item is readable. Then the full
   * name is that of the last FN item and the address that of the last ADR item
   * (or they stay as they were), every EMAIL and TEL value is appended in
   * document order, and nothing else of the entity changes.
   */
  lemma CardDecoding(items: seq<Json>, init: Entity)
    ensures ScanCard(items, init).Ok? <==> forall i :: 0 <= i < |items| ==> !UnreadableItem(items[i])
    ensures ScanCard(items, init).Ok? ==>
      var e := ScanCard(items, init).value;
      && LastWins(items, IsFn, CardValue, init.fullName, e.fullName)
      && LastWins(items, IsAdr, AdrValue, init.address, e.address)
      && e.email == init.email + Selected(items, IsEmail, CardValue)
      && e.telephone == init.telephone + Selected(items, IsTel, CardValue)
      && NonContact(e) == NonContact(init)
  {
    CardStepRaises();
    FoldCompletes(items, init, ApplyCardItem, UnreadableItem);
    if ScanCard(items, init).Ok? {
      CardStepOverwrites();
      CardStepAppends();
      FoldLastWins(items, init, ApplyCardItem, FullName, IsFn, CardValue);
      FoldLastWins(items, init, ApplyCardItem, Address, IsAdr, AdrValue);
      FoldAppends(items, init, ApplyCardItem, Emails, IsEmail, CardValue);
      FoldAppends(items, init, ApplyCardItem, Telephones, IsTel, CardValue);
      FoldKeeps(items, init, ApplyCardItem, NonContact);
    }
  }

  /** A card whose properties are all unknown leaves the entity as it was. */
  lemma UnknownPropertiesIgnored(items: seq<Json>, init: Entity)
    requires forall i :: 0 <= i < |items| ==> Index(items[i], 0).Ok? && !IsDecoded(items[i])
    ensures ScanCard(items, init) == Ok(init)
  {
    assert forall i :: 0 <= i < |items| ==> !UnreadableItem(items[i]);
    CardDecoding(items, init);
    var e := ScanCard(items, init).value;
    assert forall i :: 0 <= i < |items| ==> !IsFn(items[i]) && !IsAdr(items[i]);
    UnselectedIsEmpty(items, IsEmail, CardValue);
    UnselectedIsEmpty(items, IsTel, CardValue);
    assert ScanCard(items, init).Ok?;
    assert e.fullName == init.fullName;
    assert e.address == init.address;
    assert e.email == init.email;
    assert e.telephone == init.telephone;
    assert NonContact(e) == NonContact(init);
    assert e == NonContact(e).(fullName := e.fullName, email := e.email, telephone := e.telephone, address := e.address);
  }

  lemma {:induction false} UnselectedIsEmpty(xs: seq<Json>, matches: Json -> bool, valueOf: Json -> Result<Json>)
    requires forall i :: 0 <= i < |xs| ==> !matches(xs[i])
    ensures Selected(xs, matches, valueOf) == []
    decreases |xs|
  {
    if xs != [] {
      UnselectedIsEmpty(xs[1..], matches, valueOf);
    }
  }

  // ---------------------------------------------------------------------------
  // One entity (app.py:79-117)

  /** The `entity_data` literal. */
  function EntityDefaults(members: seq<(string, Json)>): (r: Result<Entity>)
  {
    var self :- FirstHref(Get(members, "links", DefaultLinks));
    Ok(Entity(
      kind := Get(members, "handle", JString(NotProvided)),
      fullName := JString(NotProvided),
      handle := Get(members, "handle", JString(NotProvided)),
      email := [],
      telephone := [],
      address := NotProvided,
      roles := Get(members, "roles", JArray([])),
      registration := JString(NotProvided),
      lastChanged := JString(NotProvided),
      remarks := JString(NotProvided),
      self := self,
      port43Whois := NotProvided))
  }

  /** `entity['vcardArray'][1]`, iterated. */
  function CardItems(members: seq<(string, Json)>): Result<seq<Json>>
    requires HasKey(members, "vcardArray")
  {
    var card :- Index(Member(members, "vcardArray"), 1);
    Iterate(card)
  }

  /** `entity['remarks'][0]['description'][0]`, with no default. */
  function EntityRemark(members: seq<(string, Json)>): Result<Json>
    requires HasKey(members, "remarks")
  {
    FirstDescription(Member(members, "remarks"))
  }

  /** `if 'vcardArray' in entity:` and the jCard loop. */
  function CardStage(members: seq<(string, Json)>, entity: Entity): Result<Entity> {
    if HasKey(members, "vcardArray") then
      var items :- CardItems(members);
      ScanCard(items, entity)
    else Ok(entity)
  }

  /** `if 'events' in entity:` and the entity's events loop. */
  function EventStage(members: seq<(string, Json)>, entity: Entity): Result<Entity> {
    if HasKey(members, "events") then
      var events :- Iterate(Member(members, "events"));
      var dates :- ScanEvents(events, Dates(entity.registration, entity.lastChanged));
      Ok(entity.(registration := dates.registration, lastChanged := dates.lastChanged))
    else Ok(entity)
  }

  /** `if 'remarks' in entity:` */
  function RemarkStage(members: seq<(string, Json)>, entity: Entity): Result<Entity> {
    if HasKey(members, "remarks") then
      var remark :- EntityRemark(members);
      Ok(entity.(remarks := remark))
    else Ok(entity)
  }

  /** One iteration of the entities loop: the entity built only from its own source entry. */
  function EntityOf(x: Json): Result<Entity> {
    if !x.JObject? then Raise(AttributeError)
    else
      var members := x.members;
      var e0 :- EntityDefaults(members);
      var e1 :- CardStage(members, e0);
      var e2 :- EventStage(members, e1);
      RemarkStage(members, e2)
  }

  method BuildEntity(x: Json) returns (r: Result<Entity>)
    ensures r == EntityOf(x)
  {
    if !x.JObject? {
      return Raise(AttributeError);
    }
    var members := x.members;
    var entity :- EntityDefaults(members);
    if HasKey(members, "vcardArray") {
      var items :- CardItems(members);
      entity :- DecodeCard(items, entity);
    }
    if HasKey(members, "events") {
      var events :- Iterate(Member(members, "events"));
      var dates :- CollectDates(events, Dates(entity.registration, entity.lastChanged));
      entity := entity.(registration := dates.registration, lastChanged := dates.lastChanged);
    }
    if HasKey(members, "remarks") {
      var remark :- EntityRemark(members);
      entity := entity.(remarks := remark);
    }
    return Ok(entity);
  }

  /** The jCard stage of one entity writes only the contact fields. */
  lemma CardStageKeeps(members: seq<(string, Json)>, e0: Entity)
    requires CardStage(members, e0).Ok?
    ensures var e1 := CardStage(members, e0).value;
      && e1.kind == e0.kind && e1.handle == e0.handle && e1.roles == e0.roles
      && e1.registration == e0.registration && e1.lastChanged == e0.lastChanged && e1.remarks == e0.remarks
      && e1.self == e0.self && e1.port43Whois == e0.port43Whois
  {
    if HasKey(members, "vcardArray") {
      var items := CardItems(members).value;
      CardStepAppends();
      FoldKeeps(items, e0, ApplyCardItem, NonContact);
      assert NonContact(CardStage(members, e0).value) == NonContact(e0);
    }
  }

  /** The jCard stage of one entity, from the entity it starts with. */
  lemma CardStageFields(members: seq<(string, Json)>, e0: Entity)
    requires CardStage(members, e0).Ok?
    ensures var e1 := CardStage(members, e0).value;
      && (!HasKey(members, "vcardArray") ==> e1 == e0)
      && (HasKey(members, "vcardArray") ==>
            CardItems(members).Ok? &&
            var items := CardItems(members).value;
            && LastWins(items, IsFn, CardValue, e0.fullName, e1.fullName)
            && LastWins(items, IsAdr, AdrValue, e0.address, e1.address)
            && e1.email == e0.email + Selected(items, IsEmail, CardValue)
            && e1.telephone == e0.telephone + Selected(items, IsTel, CardValue))
  {
    if HasKey(members, "vcardArray") {
      CardDecoding(CardItems(members).value, e0);
    }
  }

  /** An entity's `kind` copies its `handle`; roles and `self` come from the entry, `port43Whois` is a placeholder. */
  lemma EntityHeader(x: Json)
    requires EntityOf(x).Ok?
    ensures x.JObject?
    ensures var members := x.members; var e := EntityOf(x).value;
      && e.kind == e.handle == Get(members, "handle", JString(NotProvided))
      && e.roles == Get(members, "roles", JArray([]))
      && e.port43Whois == NotProvided
      && FirstHref(Get(members, "links", DefaultLinks)) == Ok(e.self)
  {
    var members := x.members;
    var e0 := EntityDefaults(members).value;
    var e1 := CardStage(members, e0).value;
    var e2 := EventStage(members, e1).value;
    var e := RemarkStage(members, e2).value;
    CardStageKeeps(members, e0);
    assert e.kind == e0.kind && e.handle == e0.handle && e.roles == e0.roles;
    assert e.self == e0.self && e.port43Whois == e0.port43Whois;
  }

  /** An entity's contact fields come from its jCard, or keep their placeholders when there is none. */
  lemma EntityContact(x: Json)
    requires EntityOf(x).Ok?
    ensures x.JObject?
    ensures var members := x.members; var e := EntityOf(x).value;
      && (!HasKey(members, "vcardArray") ==>
            e.fullName == JString(NotProvided) && e.email == [] && e.telephone == [] && e.address == NotProvided)
      && (HasKey(members, "vcardArray") ==>
            CardItems(members).Ok? &&
            var items := CardItems(members).value;
            && LastWins(items, IsFn, CardValue, JString(NotProvided), e.fullName)
            && LastWins(items, IsAdr, AdrValue, NotProvided, e.address)
            && e.email == Selected(items, IsEmail, CardValue)
            && e.telephone == Selected(items, IsTel, CardValue))
  {
    var members := x.members;
    var e0 := EntityDefaults(members).value;
    var e1 := CardStage(members, e0).value;
    var e2 := EventStage(members, e1).value;
    var e := RemarkStage(members, e2).value;
    assert e.fullName == e1.fullName && e.address == e1.address;
    assert e.email == e1.email && e.telephone == e1.telephone;
    assert e0.fullName == JString(NotProvided) && e0.address == NotProvided;
    assert e0.email == [] && e0.telephone == [];
    CardStageFields(members, e0);
  }

  /**
   * An entity's dates are those of its last matching events, with
   * `*not provided*` as the default; its remark is the first line of its
   * first remark.
   */
  lemma EntityDates(x: Json)
    requires EntityOf(x).Ok?
    ensures x.JObject?
    ensures var members := x.members; var e := EntityOf(x).value;
      && (!HasKey(members, "events") ==>
            e.registration == JString(NotProvided) && e.lastChanged == JString(NotProvided))
      && (HasKey(members, "events") ==>
            Iterate(Member(members, "events")).Ok? &&
            var events := Iterate(Member(members, "events")).value;
            && LastWins(events, IsRegistration, EventDate, JString(NotProvided), e.registration)
            && LastWins(events, IsLastChanged, EventDate, JString(NotProvided), e.lastChanged))
      && (!HasKey(members, "remarks") ==> e.remarks == JString(NotProvided))
      && (HasKey(members, "remarks") ==> EntityRemark(members) == Ok(e.remarks))
  {
    var members := x.members;
    var e0 := EntityDefaults(members).value;
    var e1 := CardStage(members, e0).value;
    var e2 := EventStage(members, e1).value;
    var e := RemarkStage(members, e2).value;
    CardStageKeeps(members, e0);
    assert e1.registration == JString(NotProvided) && e1.lastChanged == JString(NotProvided);
    if HasKey(members, "events") {
      EventsLastWins(Iterate(Member(members, "events")).value, Dates(e1.registration, e1.lastChanged));
    }
    assert e.registration == e2.registration && e.lastChanged == e2.lastChanged;
  }

  // ---------------------------------------------------------------------------
  // The whole document (app.py:43-119)

  /** The body of the entities loop: build the entity, then append it. */
  function AppendEntity(x: Json, built: seq<Entity>): Result<seq<Entity>> {
    var entity :- EntityOf(x);
    Ok(built + [entity])
  }

  /** `parse_data(data)` */
  function Normalize(data: Json, show: Json -> string): Result<Record> {
    if !data.JObject? then Raise(AttributeError)
    else
      var members := data.members;
      var skeleton :- Skeleton(members, show);
      var dated :- if HasKey(members, "events") then
          var events :- Iterate(Member(members, "events"));
          var dates :- ScanEvents(events, skeleton.dates);
          Ok(skeleton.(dates := dates))
        else Ok(skeleton);
      if HasKey(members, "entities") then
        var entities :- Iterate(Member(members, "entities"));
        var built :- Fold(entities, [], AppendEntity);
        Ok(dated.(entities := built))
      else Ok(dated)
  }

  method ParseData(data: Json, show: Json -> string) returns (r: Result<Record>)
    ensures r == Normalize(data, show)
  {
    if !data.JObject? {
      return Raise(AttributeError);
    }
    var members := data.members;
    var result :- Skeleton(members, show);
    if HasKey(members, "events") {
      var events :- Iterate(Member(members, "events"));
      var dates :- CollectDates(events, result.dates);
      result := result.(dates := dates);
    }
    if HasKey(members, "entities") {
      var entities :- Iterate(Member(members, "entities"));
      ghost var before := result;
      for i := 0 to |entities|
        invariant Fold(entities[..i], [], AppendEntity) == Ok(result.entities)
        invariant result == before.(entities := result.entities)
      {
        FoldNext(entities, [], AppendEntity, i);
        var entity := BuildEntity(entities[i]);
        if entity.Raise? {
          FoldStops(entities, [], AppendEntity, i + 1);
          return Raise(entity.error);
        }
        result := result.(entities := result.entities + [entity.value]);
      }
      assert entities[..|entities|] == entities;
    }
    return Ok(result);
  }

  /** The entities loop completes exactly when every entry builds; it keeps count and order. */
  lemma EntitiesPointwise(xs: seq<Json>)
    ensures Fold(xs, [], AppendEntity).Ok? <==> forall i :: 0 <= i < |xs| ==> EntityOf(xs[i]).Ok?
    ensures Fold(xs, [], AppendEntity).Ok? ==>
      var es := Fold(xs, [], AppendEntity).value;
      |es| == |xs| && forall i :: 0 <= i < |xs| ==> Ok(es[i]) == EntityOf(xs[i])
  {
    assert Maps(AppendEntity, EntityOf) by {
      forall x, acc ensures AppendEntity(x, acc) == (if EntityOf(x).Ok? then Ok(acc + [EntityOf(x).value]) else Raise(EntityOf(x).error)) {
      }
    }
    FoldMaps(xs, AppendEntity, EntityOf);
  }

  /** How `parse_data` is staged: the literal, then the events loop, then the entities loop. */
  lemma NormalizeStages(data: Json, show: Json -> string)
    requires Normalize(data, show).Ok?
    ensures data.JObject? && Skeleton(data.members, show).Ok?
    ensures var m := data.members; var sk := Skeleton(m, show).value; var r := Normalize(data, show).value;
      && r.network == sk.network && r.description == sk.description && r.links == sk.links
      && (!HasKey(m, "events") ==> r.dates == Dates(JNull, JNull))
      && (HasKey(m, "events") ==>
            Iterate(Member(m, "events")).Ok? &&
            ScanEvents(Iterate(Member(m, "events")).value, Dates(JNull, JNull)) == Ok(r.dates))
      && (!HasKey(m, "entities") ==> r.entities == [])
      && (HasKey(m, "entities") ==>
            Iterate(Member(m, "entities")).Ok? &&
            Fold(Iterate(Member(m, "entities")).value, [], AppendEntity) == Ok(r.entities))
  {
  }

  /**
   * The fixed shape of the network, description and links parts: the constant
   * placeholders, the range shared by `range` and `net_range`, and every
   * optional key taken from the document or defaulted.
   */
  lemma NormalizeNetwork(data: Json, show: Json -> string)
    requires Normalize(data, show).Ok?
    ensures data.JObject?
    ensures var m := data.members; var r := Normalize(data, show).value;
      && r.network.range == r.network.netRange
      && r.network.range == Str(Get(m, "startAddress", JString(NotAvailable)), show) + " - " +
                            Str(Get(m, "endAddress", JString(NotAvailable)), show)
      && r.network.parent == NotProvided && r.network.originAs == NotProvided && r.links.related == NotProvided
      && r.network.name == Get(m, "name", JString(NotProvided))
      && r.network.handle == Get(m, "handle", JString(NotProvided))
      && r.network.netType == Get(m, "type", JString(NotProvided))
      && r.links.port43Whois == Get(m, "port43", JString(NotProvided))
      && (!HasKey(m, "port43") ==> r.network.sourceRegistry == NotAvailable)
      && (HasKey(m, "port43") ==> SourceRegistry(Member(m, "port43")) == Ok(r.network.sourceRegistry))
      && (!HasKey(m, "cidr0_cidrs") ==> r.network.cidr == NotAvailable)
      && (HasKey(m, "cidr0_cidrs") ==> CidrList(Member(m, "cidr0_cidrs"), show) == Ok(r.network.cidr))
      && FirstDescription(Get(m, "remarks", DefaultRemarks)) == Ok(r.description)
      && (!HasKey(m, "remarks") ==> r.description == JString(NotProvided))
      && FirstHref(Get(m, "links", DefaultLinks)) == Ok(r.links.self)
      && (!HasKey(m, "links") ==> r.links.self == JString(NotProvided))
  {
    NormalizeStages(data, show);
    var m := data.members;
    var sk := Skeleton(m, show);
    assert sk.Ok?;
    if HasKey(m, "port43") {
      assert Get(m, "port43", JString("")) == Member(m, "port43");
    }
    if HasKey(m, "cidr0_cidrs") {
      assert Get(m, "cidr0_cidrs", JArray([])) == Member(m, "cidr0_cidrs");
    }
    if !HasKey(m, "remarks") {
      assert Get(m, "remarks", DefaultRemarks) == DefaultRemarks;
      assert FirstDescription(DefaultRemarks) == Ok(JString(NotProvided));
    }
    if !HasKey(m, "links") {
      assert Get(m, "links", DefaultLinks) == DefaultLinks;
      assert FirstHref(DefaultLinks) == Ok(JString(NotProvided));
    }
  }

  /** The dates are those of the last `registration` and `last changed` events, or `None`. */
  lemma NormalizeDates(data: Json, show: Json -> string)
    requires Normalize(data, show).Ok?
    ensures data.JObject?
    ensures var m := data.members; var r := Normalize(data, show).value;
      && (!HasKey(m, "events") ==> r.dates == Dates(JNull, JNull))
      && (HasKey(m, "events") ==>
            Iterate(Member(m, "events")).Ok? &&
            var events := Iterate(Member(m, "events")).value;
            && LastWins(events, IsRegistration, EventDate, JNull, r.dates.registration)
            && LastWins(events, IsLastChanged, EventDate, JNull, r.dates.lastChanged))
  {
    NormalizeStages(data, show);
    var m := data.members;
    if HasKey(m, "events") {
      EventsLastWins(Iterate(Member(m, "events")).value, Dates(JNull, JNull));
    }
  }

  /** One output entity per source entity, in order, each built from that entity alone; `[]` without the key. */
  lemma NormalizeEntities(data: Json, show: Json -> string)
    requires Normalize(data, show).Ok?
    ensures data.JObject?
    ensures var m := data.members; var r := Normalize(data, show).value;
      && (!HasKey(m, "entities") ==> r.entities == [])
      && (HasKey(m, "entities") ==>
            Iterate(Member(m, "entities")).Ok? &&
            var xs := Iterate(Member(m, "entities")).value;
            |r.entities| == |xs| && forall i :: 0 <= i < |xs| ==> Ok(r.entities[i]) == EntityOf(xs[i]))
  {
    NormalizeStages(data, show);
    var m := data.members;
    if HasKey(m, "entities") {
      EntitiesPointwise(Iterate(Member(m, "entities")).value);
    }
  }

  /** A document with none of the optional keys normalizes to the all-placeholder record. */
  lemma SparseDocument(data: Json, show: Json -> string)
    requires data.JObject?
    requires !HasKey(data.members, "port43") && !HasKey(data.members, "cidr0_cidrs")
    requires !HasKey(data.members, "remarks") && !HasKey(data.members, "links")
    requires !HasKey(data.members, "events") && !HasKey(data.members, "entities")
    ensures Normalize(data, show) == Ok(Record(
      Network(AddressRange(data.members, show), NotAvailable, AddressRange(data.members, show), NotAvailable,
              Get(data.members, "name", JString(NotProvided)), Get(data.members, "handle", JString(NotProvided)),
              NotProvided, Get(data.members, "type", JString(NotProvided)), NotProvided),
      Dates(JNull, JNull),
      JString(NotProvided),
      Links(JString(NotProvided), NotProvided, JString(NotProvided)),
      []))
  {
    var m := data.members;
    assert Get(m, "remarks", DefaultRemarks) == DefaultRemarks;
    assert FirstDescription(DefaultRemarks) == Ok(JString(NotProvided));
    assert Get(m, "links", DefaultLinks) == DefaultLinks;
    assert FirstHref(DefaultLinks) == Ok(JString(NotProvided));
    assert Get(m, "port43", JString(NotProvided)) == JString(NotProvided);
  }

  /** A registry answer with only an address range: `8.8.8.0 - 8.8.8.255`, no CIDR, no dates, no entities. */
  lemma RangeOnlyExample(show: Json -> string)
    ensures var data := JObject([("startAddress", JString("8.8.8.0")), ("endAddress", JString("8.8.8.255"))]);
      && Normalize(data, show).Ok?
      && Normalize(data, show).value.network.range == "8.8.8.0 - 8.8.8.255"
      && Normalize(data, show).value.network.cidr == "N/A"
      && Normalize(data, show).value.dates.registration == JNull
      && Normalize(data, show).value.dates.lastChanged == JNull
      && Normalize(data, show).value.entities == []
  {
    var data := JObject([("startAddress", JString("8.8.8.0")), ("endAddress", JString("8.8.8.255"))]);
    RangeOnlyKeys(data.members);
    SparseDocument(data, show);
  }

  lemma RangeOnlyKeys(m: seq<(string, Json)>)
    requires m == [("startAddress", JString("8.8.8.0")), ("endAddress", JString("8.8.8.255"))]
    ensures !HasKey(m, "port43") && !HasKey(m, "cidr0_cidrs") && !HasKey(m, "remarks")
    ensures !HasKey(m, "links") && !HasKey(m, "events") && !HasKey(m, "entities")
    ensures Get(m, "startAddress", JString(NotAvailable)) == JString("8.8.8.0")
    ensures Get(m, "endAddress", JString(NotAvailable)) == JString("8.8.8.255")
  {
    forall key | key != "startAddress" && key != "endAddress" ensures !HasKey(m, key) {
      LookupFindsLast(m, key);
    }
    LookupFindsLast(m, "startAddress");
    LookupFindsLast(m, "endAddress");
  }

  /** An empty `remarks` list is not defaulted: `remarks[0]` raises IndexError, and so does the whole normalization. */
  lemma EmptyRemarksRaise(show: Json -> string)
    ensures Normalize(JObject([("remarks", JArray([]))]), show) == Raise(IndexError)
  {
    var m := [("remarks", JArray([]))];
    forall key | key != "remarks" ensures !HasKey(m, key) {
      LookupFindsLast(m, key);
    }
    assert Get(m, "remarks", DefaultRemarks) == JArray([]);
  }

  /** A card with two EMAIL items and one TEL item yields two addresses, in order, and one number. */
  lemma CardExample()
    ensures var items := [
        JArray([JString("email"), JObject([]), JString("text"), JString("a@example.net")]),
        JArray([JString("tel"), JObject([]), JString("uri"), JString("tel:+1-555-0100")]),
        JArray([JString("email"), JObject([]), JString("text"), JString("b@example.net")])];
      var entity := JObject([("vcardArray", JArray([JString("vcard"), JArray(items)]))]);
      && EntityOf(entity).Ok?
      && EntityOf(entity).value.email == [JString("a@example.net"), JString("b@example.net")]
      && EntityOf(entity).value.telephone == [JString("tel:+1-555-0100")]
  {
    var a := JArray([JString("email"), JObject([]), JString("text"), JString("a@example.net")]);
    var t := JArray([JString("tel"), JObject([]), JString("uri"), JString("tel:+1-555-0100")]);
    var b := JArray([JString("email"), JObject([]), JString("text"), JString("b@example.net")]);
    var items := [a, t, b];
    var members := [("vcardArray", JArray([JString("vcard"), JArray(items)]))];
    CardOnlyKeys(members, items);
    assert Get(members, "links", DefaultLinks) == DefaultLinks;
    assert FirstHref(DefaultLinks) == Ok(JString(NotProvided));
    var e0 := EntityDefaults(members).value;
    assert e0.email == [] && e0.telephone == [];
    ExampleItems(a, t, b);
    CardDecoding(items, e0);
    assert CardStage(members, e0) == ScanCard(items, e0);
    var e1 := CardStage(members, e0).value;
    assert EventStage(members, e1) == Ok(e1) && RemarkStage(members, e1) == Ok(e1);
  }

  lemma CardOnlyKeys(members: seq<(string, Json)>, items: seq<Json>)
    requires members == [("vcardArray", JArray([JString("vcard"), JArray(items)]))]
    ensures HasKey(members, "vcardArray") && CardItems(members) == Ok(items)
    ensures !HasKey(members, "links") && !HasKey(members, "events") && !HasKey(members, "remarks")
  {
    forall key | key != "vcardArray" ensures !HasKey(members, key) {
      LookupFindsLast(members, key);
    }
    LookupFindsLast(members, "vcardArray");
  }

  lemma ExampleItems(a: Json, t: Json, b: Json)
    requires a == JArray([JString("email"), JObject([]), JString("text"), JString("a@example.net")])
    requires t == JArray([JString("tel"), JObject([]), JString("uri"), JString("tel:+1-555-0100")])
    requires b == JArray([JString("email"), JObject([]), JString("text"), JString("b@example.net")])
    ensures !UnreadableItem(a) && !UnreadableItem(t) && !UnreadableItem(b)
    ensures Selected([a, t, b], IsEmail, CardValue) == [JString("a@example.net"), JString("b@example.net")]
    ensures Selected([a, t, b], IsTel, CardValue) == [JString("tel:+1-555-0100")]
  {
    assert [a, t, b][1..] == [t, b] && [t, b][1..] == [b] && [b][1..] == [];
    assert Selected([b], IsEmail, CardValue) == [JString("b@example.net")] + Selected([], IsEmail, CardValue);
    assert Selected([t, b], IsEmail, CardValue) == Selected([b], IsEmail, CardValue);
    assert Selected([b], IsTel, CardValue) == Selected([], IsTel, CardValue);
    assert Selected([t, b], IsTel, CardValue) == [JString("tel:+1-555-0100")] + Selected([b], IsTel, CardValue);
    assert Selected([a, t, b], IsTel, CardValue) == Selected([t, b], IsTel, CardValue);
    assert IsEmail(a) && !IsEmail(t) && IsEmail(b);
    assert !IsTel(a) && IsTel(t) && !IsTel(b);
    assert CardValue(a) == Ok(JString("a@example.net")) && CardValue(b) == Ok(JString("b@example.net"));
    assert CardValue(t) == Ok(JString("tel:+1-555-0100"));
  }
}
