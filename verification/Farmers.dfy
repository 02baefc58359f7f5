/** Farmer registration: the identity chain is written first, the `farmers` table after it. */
module Farmers {
  import opened Wrappers
  import opened Json
  import opened Keyed
  import I = Identities

  const FIRST_LEDGER := 100_000

  datatype Metadata = Metadata(name: string, region: Option<string>, district: Option<string>, bio: Option<string>,
                               profileImageHash: Option<string>)

  /** Address syntax and the profile hash, as the libraries provide them. */
  datatype Libs = Libs(validAddress: string -> bool, hash: Metadata -> string)

  datatype ChainFarmer = ChainFarmer(created: int, updated: int)

  datatype Marker = Marker(kind: string, issuer: string, issuedLedger: int)

  datatype Farmer = Farmer(address: string, id: string, registered: bool, createdLedger: Option<int>,
                           updatedLedger: Option<int>, metadata: Metadata, metadataHash: string, markers: seq<Marker>)

  datatype Error = BadRequest | Unauthorized | Conflict | NotFound | Database | Internal

  datatype ChainError = AlreadyRegistered | Unknown

  type Table = map<string, I.Row>
  type Chain = map<string, ChainFarmer>

  /** The `farmers` table and the stub chain. */
  datatype World = World(farmers: Table, chain: Chain)

  function WithText(fields: map<string, Json>, key: string, text: Option<string>): map<string, Json> {
    match text
    case Some(s) => fields[key := JStr(s)]
    case None => fields
  }

  /** Absent fields are left out of the stored object. */
  function ToJson(m: Metadata): Json {
    var named := map["name" := JStr(m.name)];
    var placed := WithText(WithText(named, "region", m.region), "district", m.district);
    JObj(WithText(WithText(placed, "bio", m.bio), "profileImageHash", m.profileImageHash))
  }

  /** A text that may be null; the outer None is a type error. */
  function OptionalText(j: Json): Option<Option<string>> {
    match j
    case JNull => Some(None)
    case JStr(s) => Some(Some(s))
    case _ => None
  }

  /** An absent field reads as null. */
  function TextField(fields: map<string, Json>, key: string): Option<Option<string>> {
    if key in fields then OptionalText(fields[key]) else Some(None)
  }

  function TextItem(items: seq<Json>, i: nat): Option<Option<string>> {
    if i < |items| then OptionalText(items[i]) else Some(None)
  }

  /** The library reads a record from an object, or from an array of its fields in order. */
  function ReadMetadata(j: Json): Option<Metadata> {
    match j
    case JObj(fields) =>
      (if "name" !in fields || !fields["name"].JStr? then None
       else
         var region :- TextField(fields, "region");
         var district :- TextField(fields, "district");
         var bio :- TextField(fields, "bio");
         var image :- TextField(fields, "profileImageHash");
         Some(Metadata(fields["name"].s, region, district, bio, image)))
    case JArr(items) =>
      (if items == [] || |items| > 5 || !items[0].JStr? then None
       else
         var region :- TextItem(items, 1);
         var district :- TextItem(items, 2);
         var bio :- TextItem(items, 3);
         var image :- TextItem(items, 4);
         Some(Metadata(items[0].s, region, district, bio, image)))
    case _ => None
  }

  lemma WithTextAt(fields: map<string, Json>, key: string, text: Option<string>, k: string)
    requires key !in fields
    ensures
      var t := WithText(fields, key, text);
      && TextField(t, k) == (if k == key then Some(text) else TextField(fields, k))
      && (k != key ==> (k in t <==> k in fields))
  {
  }

  lemma MetadataRoundTrip(m: Metadata)
    ensures ReadMetadata(ToJson(m)) == Some(m)
  {
    var named := map["name" := JStr(m.name)];
    var a := WithText(named, "region", m.region);
    var b := WithText(a, "district", m.district);
    var c := WithText(b, "bio", m.bio);
    forall k: string ensures TextField(c, k) ==
      if k == "bio" then Some(m.bio) else if k == "district" then Some(m.district)
      else if k == "region" then Some(m.region) else TextField(named, k)
    {
      WithTextAt(named, "region", m.region, k);
      WithTextAt(a, "district", m.district, k);
      WithTextAt(b, "bio", m.bio, k);
    }
    forall k: string ensures TextField(ToJson(m).fields, k) ==
      if k == "profileImageHash" then Some(m.profileImageHash) else TextField(c, k)
    {
      WithTextAt(c, "profileImageHash", m.profileImageHash, k);
    }
  }

  function ReadMarker(j: Json): Option<Marker> {
    match j
    case JObj(fields) =>
      (if "kind" in fields && fields["kind"].JStr? && "issuer" in fields && fields["issuer"].JStr? then
         var ledger :- FieldI64(j, "issued_ledger");
         Some(Marker(fields["kind"].s, fields["issuer"].s, ledger))
       else None)
    case JArr(items) =>
      (if |items| == 3 && items[0].JStr? && items[1].JStr? then
         var ledger :- AsI64(items[2]);
         Some(Marker(items[0].s, items[1].s, ledger))
       else None)
    case _ => None
  }

  function ReadMarkers(items: seq<Json>): Option<seq<Marker>> {
    if items == [] then Some([])
    else
      var front :- ReadMarkers(items[..|items| - 1]);
      var last :- ReadMarker(items[|items| - 1]);
      Some(front + [last])
  }

  /** A raw address, or its presentation form with the `va:farmer:` prefix. */
  function ParseFarmerIdentifier(libs: Libs, input: string): Option<string> {
    var address := if I.FARMER_ID_PREFIX <= input then input[|I.FARMER_ID_PREFIX|..] else input;
    if libs.validAddress(address) then Some(address) else None
  }

  /** The White_Space code points, which a name is trimmed of. */
  predicate IsSpace(c: char) {
    var n := c as int;
    || 0x9 <= n <= 0xD || n == 0x20 || n == 0x85 || n == 0xA0 || n == 0x1680 || 0x2000 <= n <= 0x200A
    || n == 0x2028 || n == 0x2029 || n == 0x202F || n == 0x205F || n == 0x3000
  }

  /** The 25 of them, one by one. */
  lemma SpacesAre(c: char)
    ensures IsSpace(c) <==>
              c as int in {9, 10, 11, 12, 13, 32, 133, 160, 5760, 8192, 8193, 8194, 8195, 8196, 8197, 8198, 8199, 8200,
                           8201, 8202, 8232, 8233, 8239, 8287, 12288}
  {
  }

  predicate Blank(s: string) { forall i :: 0 <= i < |s| ==> IsSpace(s[i]) }

  function ChainRegister(chain: Chain, address: string): (Chain, Result<ChainFarmer, ChainError>) {
    if address in chain then (chain, Err(AlreadyRegistered))
    else
      var farmer := ChainFarmer(FIRST_LEDGER + |chain|, FIRST_LEDGER + |chain|);
      (chain[address := farmer], Ok(farmer))
  }

  function ChainUpdate(chain: Chain, address: string): (Chain, Result<ChainFarmer, ChainError>) {
    if address !in chain then (chain, Err(Unknown))
    else
      var farmer := chain[address].(updated := FIRST_LEDGER + |chain|);
      (chain[address := farmer], Ok(farmer))
  }

  /** The address a request speaks for, or why it is turned down before the chain is touched. */
  function Admit(libs: Libs, input: string, m: Metadata, provided: Option<string>, actor: string)
    : Result<string, Error>
  {
    match ParseFarmerIdentifier(libs, input)
    case None => Err(BadRequest)
    case Some(address) =>
      if actor != address then Err(Unauthorized)
      else if Blank(m.name) then Err(BadRequest)
      else if provided.Some? && provided.value != libs.hash(m) then Err(BadRequest)
      else Ok(address)
  }

  /** The row's address is the primary key; its id is unique as well. */
  predicate Taken(farmers: Table, address: string) {
    address in farmers || exists k :: k in farmers && farmers[k].id == I.FarmerId(address)
  }

  function NewRow(libs: Libs, address: string, m: Metadata, f: ChainFarmer): I.Row {
    I.Row(I.FarmerId(address), ToJson(m), libs.hash(m), true, Some(f.created), Some(f.updated), JArr([]))
  }

  /** `writes` says whether the database takes the INSERT; the chain has been written by then. */
  function Register(libs: Libs, w: World, input: string, m: Metadata, provided: Option<string>, actor: string,
                    writes: bool)
    : (World, Result<Farmer, Error>)
  {
    match Admit(libs, input, m, provided, actor)
    case Err(error) => (w, Err(error))
    case Ok(address) =>
      var (chain, onChain) := ChainRegister(w.chain, address);
      match onChain
      case Err(_) => (w, Err(Conflict))
      case Ok(f) =>
        if !writes || Taken(w.farmers, address) then (w.(chain := chain), Err(Database))
        else
          (World(w.farmers[address := NewRow(libs, address, m, f)], chain),
           Ok(Farmer(address, I.FarmerId(address), true, Some(f.created), Some(f.updated), m, libs.hash(m), [])))
  }

  function ReadRow(address: string, row: I.Row): Result<Farmer, Error> {
    match ReadMetadata(row.metadata)
    case None => Err(Internal)
    case Some(metadata) =>
      if !row.markers.JArr? then Err(Internal)
      else
        match ReadMarkers(row.markers.items)
        case None => Err(Internal)
        case Some(markers) =>
          Ok(Farmer(address, row.id, row.registered, row.createdLedger, row.updatedLedger, metadata,
                    row.metadataHash, markers))
  }

  function Lookup(libs: Libs, farmers: Table, input: string): Result<Farmer, Error> {
    match ParseFarmerIdentifier(libs, input)
    case None => Err(BadRequest)
    case Some(address) => if address !in farmers then Err(NotFound) else ReadRow(address, farmers[address])
  }

  function NewProfile(libs: Libs, row: I.Row, m: Metadata, ledger: int): I.Row {
    row.(metadata := ToJson(m), metadataHash := libs.hash(m), updatedLedger := Some(ledger))
  }

  function Rewritten(libs: Libs, farmers: Table, address: string, m: Metadata, ledger: int): Table {
    if address !in farmers then farmers
    else
      farmers[address := NewProfile(libs, farmers[address], m, ledger)]
  }

  function Update(libs: Libs, w: World, input: string, m: Metadata, actor: string, writes: bool)
    : (World, Result<Farmer, Error>)
  {
    match Admit(libs, input, m, None, actor)
    case Err(error) => (w, Err(error))
    case Ok(address) =>
      var (chain, onChain) := ChainUpdate(w.chain, address);
      match onChain
      case Err(_) => (w, Err(NotFound))
      case Ok(f) =>
        if !writes then (w.(chain := chain), Err(Database))
        else
          var farmers := Rewritten(libs, w.farmers, address, m, f.updated);
          (World(farmers, chain), Lookup(libs, farmers, address))
  }

  datatype Call =
    | Registration(input: string, metadata: Metadata, provided: Option<string>, actor: string, writes: bool)
    | NewMetadata(input: string, metadata: Metadata, actor: string, writes: bool)
    | Event(op: I.Op)

  /** One API call, or one identity event the indexer projects onto the same table. */
  function Do(libs: Libs, w: World, call: Call): World {
    match call
    case Registration(input, m, provided, actor, writes) => Register(libs, w, input, m, provided, actor, writes).0
    case NewMetadata(input, m, actor, writes) => Update(libs, w, input, m, actor, writes).0
    case Event(op) => w.(farmers := Apply(I.RULES, op, w.farmers))
  }

  function Run(libs: Libs, calls: seq<Call>): World {
    if calls == [] then World(map[], map[])
    else Do(libs, Run(libs, calls[..|calls| - 1]), calls[|calls| - 1])
  }

  ghost predicate Stores(libs: Libs, row: I.Row, m: Metadata) {
    row.metadata == ToJson(m) && row.metadataHash == libs.hash(m)
  }

  /** The stored hash is the hash of the stored metadata. */
  ghost predicate Honest(libs: Libs, row: I.Row) {
    exists m :: Stores(libs, row, m)
  }

  /** As the indexer first wrote it, before any API profile. */
  predicate Untouched(row: I.Row) { row.metadata == JObj(map[]) && row.metadataHash == "" }

  ghost predicate ProfileOk(libs: Libs, k: string, row: I.Row) {
    row.id == I.FarmerId(k) && (Honest(libs, row) || Untouched(row))
  }

  ghost predicate ProfilesOk(libs: Libs, farmers: Table) {
    forall k :: k in farmers ==> ProfileOk(libs, k, farmers[k])
  }

  lemma IdsDiffer(a: string, b: string)
    ensures I.FarmerId(a) == I.FarmerId(b) <==> a == b
  {
    assert I.FarmerId(a)[|I.FARMER_ID_PREFIX|..] == a && I.FarmerId(b)[|I.FARMER_ID_PREFIX|..] == b;
  }

  lemma TakenIsListed(farmers: Table, address: string)
    requires forall k :: k in farmers ==> farmers[k].id == I.FarmerId(k)
    ensures Taken(farmers, address) <==> address in farmers
  {
    forall k | k in farmers && farmers[k].id == I.FarmerId(address) ensures k == address {
      IdsDiffer(k, address);
    }
  }

  /** A registration that reaches the chain, by the caller's own address. */
  lemma RegistrationCases(libs: Libs, w: World, call: Call)
    requires call.Registration?
    ensures
      var t, a := Do(libs, w, call), call.actor;
      || t == w
      || (&& a !in w.chain && t.chain == ChainRegister(w.chain, a).0
          && t.farmers ==
               if !call.writes || Taken(w.farmers, a) then w.farmers
               else w.farmers[a := NewRow(libs, a, call.metadata, ChainRegister(w.chain, a).1.value)])
  {
  }

  lemma NewMetadataCases(libs: Libs, w: World, call: Call)
    requires call.NewMetadata?
    ensures
      var t, a := Do(libs, w, call), call.actor;
      || t == w
      || (&& a in w.chain && t.chain == ChainUpdate(w.chain, a).0
          && t.farmers ==
               if call.writes then Rewritten(libs, w.farmers, a, call.metadata, FIRST_LEDGER + |w.chain|)
               else w.farmers)
  {
  }

  lemma SameProfile(libs: Libs, k: string, was: I.Row, row: I.Row)
    requires ProfileOk(libs, k, was)
    requires row.id == was.id && row.metadata == was.metadata && row.metadataHash == was.metadataHash
    ensures ProfileOk(libs, k, row)
  {
    if Honest(libs, was) {
      var m :| Stores(libs, was, m);
      assert Stores(libs, row, m);
    }
  }

  lemma EventOnRow(libs: Libs, op: I.Op, row: Option<I.Row>)
    requires row.Some? ==> ProfileOk(libs, op.key, row.value)
    ensures
      var t := I.Step(op, row);
      && (row.Some? ==>
            && t.Some? && t.value.metadata == row.value.metadata
            && t.value.metadataHash == row.value.metadataHash)
      && (t.Some? ==> ProfileOk(libs, op.key, t.value))
  {
    var t := I.Step(op, row);
    if row.Some? {
      SameProfile(libs, op.key, row.value, t.value);
    } else if t.Some? {
      assert Untouched(t.value);
    }
  }

  lemma EventKeepsProfiles(libs: Libs, farmers: Table, op: I.Op)
    requires ProfilesOk(libs, farmers)
    ensures
      var t := Apply(I.RULES, op, farmers);
      && ProfilesOk(libs, t)
      && forall k :: k in farmers ==>
           && k in t && t[k].metadata == farmers[k].metadata && t[k].metadataHash == farmers[k].metadataHash
  {
    var t, k := Apply(I.RULES, op, farmers), op.key;
    EventOnRow(libs, op, Get(farmers, k));
    assert t == Put(farmers, k, I.Step(op, Get(farmers, k)));
  }

  lemma CallKeepsProfiles(libs: Libs, w: World, call: Call)
    requires ProfilesOk(libs, w.farmers)
    ensures ProfilesOk(libs, Do(libs, w, call).farmers)
  {
    match call
    case Event(op) => EventKeepsProfiles(libs, w.farmers, op);
    case Registration(_, m, _, a, _) =>
      RegistrationCases(libs, w, call);
      assert Stores(libs, NewRow(libs, a, m, ChainFarmer(0, 0)), m);
      assert forall f :: Stores(libs, NewRow(libs, a, m, f), m);
    case NewMetadata(_, m, a, _) =>
      NewMetadataCases(libs, w, call);
      assert a in w.farmers ==> Stores(libs, Rewritten(libs, w.farmers, a, m, FIRST_LEDGER + |w.chain|)[a], m);
  }

  /**
   Whatever API calls and identity events interleave, and whichever writes fail: every row keeps the
   hash of its metadata, or is still the indexer's untouched row.
   */
  lemma {:induction false} RowsStayHonest(libs: Libs, calls: seq<Call>)
    ensures ProfilesOk(libs, Run(libs, calls).farmers)
  {
    if calls != [] {
      RowsStayHonest(libs, calls[..|calls| - 1]);
      CallKeepsProfiles(libs, Run(libs, calls[..|calls| - 1]), calls[|calls| - 1]);
    }
  }

  ghost predicate Numbered(chain: Chain, n: int) {
    exists a :: a in chain && chain[a].created == 100_000 + n
  }

  /** The created ledgers are exactly 100000 .. 100000 + n - 1, one farmer each. */
  ghost predicate Consecutive(chain: Chain) {
    && (forall a :: a in chain ==> 100_000 <= chain[a].created < 100_000 + |chain|)
    && (forall a :: a in chain ==> chain[a].created <= chain[a].updated <= 100_000 + |chain|)
    && (forall a, b :: a in chain && b in chain && chain[a].created == chain[b].created ==> a == b)
    && (forall n :: 0 <= n < |chain| ==> Numbered(chain, n))
  }

  lemma RegisterKeepsConsecutive(chain: Chain, address: string)
    requires Consecutive(chain) && address !in chain
    ensures Consecutive(ChainRegister(chain, address).0)
  {
    var t := ChainRegister(chain, address).0;
    assert |t| == |chain| + 1;
    forall n | 0 <= n < |t| ensures Numbered(t, n) {
      if n < |chain| {
        assert Numbered(chain, n);
        var a :| a in chain && chain[a].created == FIRST_LEDGER + n;
        assert t[a].created == FIRST_LEDGER + n;
      } else {
        assert t[address].created == FIRST_LEDGER + n;
      }
    }
  }

  lemma UpdateKeepsConsecutive(chain: Chain, address: string)
    requires Consecutive(chain) && address in chain
    ensures Consecutive(ChainUpdate(chain, address).0)
  {
    var t := ChainUpdate(chain, address).0;
    assert t.Keys == chain.Keys;
    assert |t| == |t.Keys| == |chain.Keys| == |chain|;
    forall n | 0 <= n < |t| ensures Numbered(t, n) {
      assert Numbered(chain, n);
      var a :| a in chain && chain[a].created == FIRST_LEDGER + n;
      assert t[a].created == FIRST_LEDGER + n;
    }
  }

  lemma CallKeepsConsecutive(libs: Libs, w: World, call: Call)
    requires Consecutive(w.chain)
    ensures Consecutive(Do(libs, w, call).chain)
  {
    var t := Do(libs, w, call);
    match call
    case Event(_) =>
    case Registration(_, _, _, a, _) =>
      RegistrationCases(libs, w, call);
      if t != w {
        RegisterKeepsConsecutive(w.chain, a);
      }
    case NewMetadata(_, _, a, _) =>
      NewMetadataCases(libs, w, call);
      if t != w {
        UpdateKeepsConsecutive(w.chain, a);
      }
  }

  /** In every run, with failed writes and identity events in any order. */
  lemma {:induction false} LedgersConsecutive(libs: Libs, calls: seq<Call>)
    ensures Consecutive(Run(libs, calls).chain)
  {
    if calls != [] {
      var w, call := Run(libs, calls[..|calls| - 1]), calls[|calls| - 1];
      LedgersConsecutive(libs, calls[..|calls| - 1]);
      CallKeepsConsecutive(libs, w, call);
    }
  }

  ghost predicate RowMirrors(libs: Libs, k: string, row: I.Row, f: ChainFarmer) {
    && row.id == I.FarmerId(k) && row.registered && row.markers == JArr([])
    && row.createdLedger == Some(f.created) && row.updatedLedger == Some(f.updated)
    && Honest(libs, row)
  }

  /** Same addresses, same ledgers, and each stored profile matches its hash. */
  ghost predicate Mirror(libs: Libs, w: World) {
    && w.farmers.Keys == w.chain.Keys
    && forall k :: k in w.chain ==> RowMirrors(libs, k, w.farmers[k], w.chain[k])
  }

  predicate Writes(call: Call) {
    match call
    case Registration(_, _, _, _, writes) => writes
    case NewMetadata(_, _, _, writes) => writes
    case Event(_) => false
  }

  lemma PutMirrors(libs: Libs, w: World, a: string, row: I.Row, f: ChainFarmer)
    requires Mirror(libs, w) && RowMirrors(libs, a, row, f)
    ensures Mirror(libs, World(w.farmers[a := row], w.chain[a := f]))
  {
    var t := World(w.farmers[a := row], w.chain[a := f]);
    forall k | k in t.chain ensures RowMirrors(libs, k, t.farmers[k], t.chain[k]) {
      assert k != a ==> RowMirrors(libs, k, w.farmers[k], w.chain[k]);
    }
  }

  lemma NewRowMirrors(libs: Libs, a: string, m: Metadata, f: ChainFarmer)
    ensures RowMirrors(libs, a, NewRow(libs, a, m, f), f)
  {
    assert Stores(libs, NewRow(libs, a, m, f), m);
  }

  lemma NewProfileMirrors(libs: Libs, a: string, row: I.Row, f: ChainFarmer, m: Metadata, ledger: int)
    requires RowMirrors(libs, a, row, f)
    ensures RowMirrors(libs, a, NewProfile(libs, row, m, ledger), f.(updated := ledger))
  {
    assert Stores(libs, NewProfile(libs, row, m, ledger), m);
  }

  lemma ChainMoves(chain: Chain, a: string)
    requires a in chain
    ensures ChainUpdate(chain, a).0 == chain <==> chain[a].updated == FIRST_LEDGER + |chain|
  {
    if chain[a].updated == FIRST_LEDGER + |chain| {
      assert chain[a := chain[a]] == chain;
    }
  }

  /** The call gets through to the chain and changes what it holds. */
  predicate Touches(libs: Libs, w: World, call: Call) {
    match call
    case Registration(input, m, provided, actor, _) =>
      Admit(libs, input, m, provided, actor).Ok? && actor !in w.chain
    case NewMetadata(input, m, actor, _) =>
      && Admit(libs, input, m, None, actor).Ok?
      && actor in w.chain && w.chain[actor].updated != 100_000 + |w.chain|
    case Event(_) => false
  }

  lemma TouchesChanges(libs: Libs, w: World, call: Call)
    ensures Touches(libs, w, call) <==> Do(libs, w, call).chain != w.chain
  {
    match call
    case Registration(input, m, provided, actor, _) =>
    case NewMetadata(input, m, actor, _) =>
      if Admit(libs, input, m, None, actor).Ok? && actor in w.chain {
        ChainMoves(w.chain, actor);
      }
    case Event(_) =>
  }

  lemma RegistrationMirrors(libs: Libs, w: World, call: Call)
    requires Mirror(libs, w) && call.Registration?
    ensures Mirror(libs, Do(libs, w, call)) <==> Writes(call) || Do(libs, w, call).chain == w.chain
  {
    var t, a := Do(libs, w, call), call.actor;
    RegistrationCases(libs, w, call);
    if t != w {
      assert forall k :: k in w.farmers ==> RowMirrors(libs, k, w.farmers[k], w.chain[k]);
      TakenIsListed(w.farmers, a);
      var f := t.chain[a];
      NewRowMirrors(libs, a, call.metadata, f);
      PutMirrors(libs, w, a, NewRow(libs, a, call.metadata, f), f);
      assert a in t.chain && a !in w.farmers;
    }
  }

  lemma WrittenMirrors(libs: Libs, w: World, a: string, m: Metadata)
    requires Mirror(libs, w) && a in w.chain
    ensures Mirror(libs, World(Rewritten(libs, w.farmers, a, m, FIRST_LEDGER + |w.chain|), ChainUpdate(w.chain, a).0))
  {
    var row, f, ledger := w.farmers[a], w.chain[a], FIRST_LEDGER + |w.chain|;
    assert RowMirrors(libs, a, row, f);
    NewProfileMirrors(libs, a, row, f, m, ledger);
    PutMirrors(libs, w, a, NewProfile(libs, row, m, ledger), f.(updated := ledger));
  }

  lemma UnwrittenParts(libs: Libs, w: World, a: string)
    requires Mirror(libs, w) && a in w.chain && ChainUpdate(w.chain, a).0 != w.chain
    ensures !Mirror(libs, World(w.farmers, ChainUpdate(w.chain, a).0))
  {
    var t := World(w.farmers, ChainUpdate(w.chain, a).0);
    assert RowMirrors(libs, a, w.farmers[a], w.chain[a]);
    ChainMoves(w.chain, a);
    assert a in t.chain && !RowMirrors(libs, a, t.farmers[a], t.chain[a]);
  }

  lemma NewMetadataMirrors(libs: Libs, w: World, call: Call)
    requires Mirror(libs, w) && call.NewMetadata?
    ensures Mirror(libs, Do(libs, w, call)) <==> Writes(call) || Do(libs, w, call).chain == w.chain
  {
    var t, a := Do(libs, w, call), call.actor;
    NewMetadataCases(libs, w, call);
    if t != w {
      if call.writes {
        WrittenMirrors(libs, w, a, call.metadata);
      } else if t.chain != w.chain {
        UnwrittenParts(libs, w, a);
      }
    }
  }

  /**
   The two stores part exactly when the database write fails after a new farmer's registration, or after
   an update of one whose ledger on the chain is another than the next.
   */
  lemma CallMirrors(libs: Libs, w: World, call: Call)
    requires Mirror(libs, w) && !call.Event?
    ensures Mirror(libs, Do(libs, w, call)) <==> Writes(call) || !Touches(libs, w, call)
  {
    TouchesChanges(libs, w, call);
    if call.Registration? {
      RegistrationMirrors(libs, w, call);
    } else {
      NewMetadataMirrors(libs, w, call);
    }
  }

  /** An API call leaves the table alone or makes the one write to it that the indexer has to live with. */
  lemma CallWrites(libs: Libs, w: World, call: Call)
    requires !call.Event?
    ensures
      var t, a := Do(libs, w, call).farmers, call.actor;
      t == w.farmers || (a in t && t == w.farmers[a := t[a]] && I.ApiWrite(a, Get(w.farmers, a), t[a]))
  {
    if call.Registration? {
      RegistrationCases(libs, w, call);
    } else {
      NewMetadataCases(libs, w, call);
    }
  }

  ghost predicate ApiOnly(calls: seq<Call>) {
    forall call :: call in calls ==> !call.Event?
  }

  /** Over API-only runs whose writes succeed, the table mirrors the chain. */
  lemma {:induction false} TableMirrorsChain(libs: Libs, calls: seq<Call>)
    requires ApiOnly(calls) && forall call :: call in calls ==> Writes(call)
    ensures Mirror(libs, Run(libs, calls))
  {
    if calls != [] {
      assert calls[|calls| - 1] in calls;
      TableMirrorsChain(libs, calls[..|calls| - 1]);
      CallMirrors(libs, Run(libs, calls[..|calls| - 1]), calls[|calls| - 1]);
    }
  }

  function RunFrom(libs: Libs, w: World, calls: seq<Call>): World {
    if calls == [] then w
    else Do(libs, RunFrom(libs, w, calls[..|calls| - 1]), calls[|calls| - 1])
  }

  /** An address whose row was not written after the chain took it never gets a row through the API again. */
  lemma {:induction false} StrandedForever(libs: Libs, w: World, calls: seq<Call>, address: string)
    requires ApiOnly(calls) && address in w.chain && address !in w.farmers
    ensures address in RunFrom(libs, w, calls).chain && address !in RunFrom(libs, w, calls).farmers
  {
    if calls != [] {
      assert calls[|calls| - 1] in calls;
      StrandedForever(libs, w, calls[..|calls| - 1], address);
    }
  }

  /** No valid address looks like a presentation id. */
  ghost predicate PlainAddresses(libs: Libs) {
    forall a :: libs.validAddress(a) ==> !(I.FARMER_ID_PREFIX <= a)
  }

  lemma BothForms(libs: Libs, address: string)
    requires PlainAddresses(libs) && libs.validAddress(address)
    ensures ParseFarmerIdentifier(libs, address) == Some(address)
    ensures ParseFarmerIdentifier(libs, I.FarmerId(address)) == Some(address)
  {
    assert I.FarmerId(address)[|I.FARMER_ID_PREFIX|..] == address;
  }

  /** What a registration returns is what a lookup by either form of the id then finds. */
  lemma RegisterThenGet(libs: Libs, w: World, input: string, m: Metadata, provided: Option<string>, actor: string,
                        writes: bool)
    requires PlainAddresses(libs)
    requires Register(libs, w, input, m, provided, actor, writes).1.Ok?
    ensures
      var (t, r) := Register(libs, w, input, m, provided, actor, writes);
      && r.value.metadata == m && r.value.metadataHash == libs.hash(m)
      && Lookup(libs, t.farmers, actor) == r && Lookup(libs, t.farmers, I.FarmerId(actor)) == r
  {
    BothForms(libs, actor);
    MetadataRoundTrip(m);
  }

  /** An update answers with the new profile and leaves id and created ledger alone. */
  lemma UpdateThenGet(libs: Libs, w: World, input: string, m: Metadata, actor: string, writes: bool)
    requires PlainAddresses(libs)
    requires Update(libs, w, input, m, actor, writes).1.Ok?
    ensures
      var (t, r) := Update(libs, w, input, m, actor, writes);
      && r.value.metadata == m && r.value.metadataHash == libs.hash(m)
      && actor in w.farmers && r.value.id == w.farmers[actor].id
      && r.value.createdLedger == w.farmers[actor].createdLedger
      && r.value.updatedLedger == Some(100_000 + |t.chain|)
      && Lookup(libs, t.farmers, actor) == r && Lookup(libs, t.farmers, I.FarmerId(actor)) == r
  {
    BothForms(libs, actor);
    MetadataRoundTrip(m);
    var t := Update(libs, w, input, m, actor, writes).0;
    assert t.chain.Keys == w.chain.Keys;
    assert |t.chain| == |t.chain.Keys| == |w.chain.Keys| == |w.chain|;
  }

  /** The request speaks for an address, by the address itself or by its presentation id. */
  predicate Names(libs: Libs, input: string, address: string) {
    && libs.validAddress(address)
    && input == if "va:farmer:" <= input then "va:farmer:" + address else address
  }

  lemma NamesExact(libs: Libs, input: string)
    ensures forall a :: ParseFarmerIdentifier(libs, input) == Some(a) <==> Names(libs, input, a)
    ensures ParseFarmerIdentifier(libs, input) == None <==> forall a :: !Names(libs, input, a)
  {
    var n := |"va:farmer:"|;
    if "va:farmer:" <= input {
      assert input == "va:farmer:" + input[n..];
      forall a | input == "va:farmer:" + a ensures a == input[n..] {}
    }
    var address := if "va:farmer:" <= input then input[n..] else input;
    assert libs.validAddress(address) ==> Names(libs, input, address);
  }

  /** The caller speaks for itself, gives a name, and any hash sent along is the right one. */
  ghost predicate Good(libs: Libs, input: string, m: Metadata, provided: Option<string>, actor: string) {
    Names(libs, input, actor) && Named(m) && (provided == None || provided == Some(libs.hash(m)))
  }

  ghost predicate Named(m: Metadata) { exists i :: 0 <= i < |m.name| && !IsSpace(m.name[i]) }

  ghost predicate NamesAnother(libs: Libs, input: string, actor: string) {
    exists a :: Names(libs, input, a) && a != actor
  }

  lemma AdmitExactly(libs: Libs, input: string, m: Metadata, provided: Option<string>, actor: string)
    ensures
      var r := Admit(libs, input, m, provided, actor);
      && (forall a :: r == Ok(a) <==> a == actor && Good(libs, input, m, provided, actor))
      && (r == Err(Unauthorized) <==> NamesAnother(libs, input, actor))
      && (r == Err(BadRequest) <==> !NamesAnother(libs, input, actor) && !Good(libs, input, m, provided, actor))
  {
    NamesExact(libs, input);
    var parsed := ParseFarmerIdentifier(libs, input);
    assert parsed.Some? ==> Names(libs, input, parsed.value);
    assert Blank(m.name) <==> !Named(m);
  }

  /** Neither the address nor its id is in the table. */
  ghost predicate Free(farmers: Table, address: string) {
    address !in farmers && forall k :: k in farmers ==> farmers[k].id != "va:farmer:" + address
  }

  /** A registration with every column it writes and returns. */
  ghost predicate Enrolled(libs: Libs, w: World, t: World, a: string, m: Metadata, f: Farmer) {
    var ledger := 100_000 + |w.chain|;
    && f == Farmer(a, "va:farmer:" + a, true, Some(ledger), Some(ledger), m, libs.hash(m), [])
    && t.chain == w.chain[a := ChainFarmer(ledger, ledger)]
    && t.farmers == w.farmers[a := I.Row(f.id, ToJson(m), libs.hash(m), true, Some(ledger), Some(ledger), JArr([]))]
  }

  /** When a registration succeeds, when each refusal is given, and what either leaves behind. */
  lemma RegisterExactly(libs: Libs, w: World, input: string, m: Metadata, provided: Option<string>, actor: string,
                        writes: bool)
    ensures
      var (t, r) := Register(libs, w, input, m, provided, actor, writes);
      var good := Good(libs, input, m, provided, actor);
      && (r.Ok? <==> good && actor !in w.chain && writes && Free(w.farmers, actor))
      && (r == Err(Unauthorized) <==> NamesAnother(libs, input, actor))
      && (r == Err(BadRequest) <==> !NamesAnother(libs, input, actor) && !good)
      && (r == Err(Conflict) <==> good && actor in w.chain)
      && (r == Err(Database) <==> good && actor !in w.chain && !(writes && Free(w.farmers, actor)))
      && (r.Ok? ==> Enrolled(libs, w, t, actor, m, r.value))
      && (r.Err? && r.error != Database ==> t == w)
      && (r == Err(Database) ==>
            && t.farmers == w.farmers
            && t.chain == w.chain[actor := ChainFarmer(100_000 + |w.chain|, 100_000 + |w.chain|)])
  {
    AdmitExactly(libs, input, m, provided, actor);
    assert Free(w.farmers, actor) <==> !Taken(w.farmers, actor);
  }

  /** A text that may be null. */
  predicate TextIs(j: Json, text: Option<string>) {
    j == if text.None? then JNull else JStr(text.value)
  }

  predicate FieldIs(fields: map<string, Json>, key: string, text: Option<string>) {
    if key in fields then TextIs(fields[key], text) else text == None
  }

  predicate ItemIs(items: seq<Json>, i: nat, text: Option<string>) {
    if i < |items| then TextIs(items[i], text) else text == None
  }

  /** A stored profile, by field name or by position. */
  predicate MetadataIs(j: Json, m: Metadata) {
    match j
    case JObj(fields) =>
      && "name" in fields && fields["name"] == JStr(m.name)
      && FieldIs(fields, "region", m.region) && FieldIs(fields, "district", m.district)
      && FieldIs(fields, "bio", m.bio) && FieldIs(fields, "profileImageHash", m.profileImageHash)
    case JArr(items) =>
      && 1 <= |items| <= 5 && items[0] == JStr(m.name)
      && ItemIs(items, 1, m.region) && ItemIs(items, 2, m.district)
      && ItemIs(items, 3, m.bio) && ItemIs(items, 4, m.profileImageHash)
    case _ => false
  }

  /** Reading a profile gives exactly what is stored under its field names or at its positions. */
  lemma MetadataExact(j: Json, m: Metadata)
    ensures ReadMetadata(j) == Some(m) <==> MetadataIs(j, m)
  {
  }

  /** A stored profile is an object with the name and the fields that are given, and no other key. */
  lemma StoredKeys(m: Metadata)
    ensures ToJson(m).JObj? && MetadataIs(ToJson(m), m)
    ensures forall k :: k in ToJson(m).fields <==>
      || k == "name" || (k == "region" && m.region.Some?) || (k == "district" && m.district.Some?)
      || (k == "bio" && m.bio.Some?) || (k == "profileImageHash" && m.profileImageHash.Some?)
  {
    MetadataRoundTrip(m);
    MetadataExact(ToJson(m), m);
  }

  predicate LedgerIs(j: Json, ledger: int) {
    j == JNum(ledger) && -0x8000_0000_0000_0000 <= ledger < 0x8000_0000_0000_0000
  }

  predicate MarkerIs(j: Json, k: Marker) {
    match j
    case JObj(fields) =>
      && "kind" in fields && fields["kind"] == JStr(k.kind)
      && "issuer" in fields && fields["issuer"] == JStr(k.issuer)
      && "issued_ledger" in fields && LedgerIs(fields["issued_ledger"], k.issuedLedger)
    case JArr(items) =>
      |items| == 3 && items[0] == JStr(k.kind) && items[1] == JStr(k.issuer) && LedgerIs(items[2], k.issuedLedger)
    case _ => false
  }

  lemma MarkerExact(j: Json, k: Marker)
    ensures ReadMarker(j) == Some(k) <==> MarkerIs(j, k)
  {
  }

  ghost predicate MarkersAre(j: Json, markers: seq<Marker>) {
    j.JArr? && |j.items| == |markers| && forall i :: 0 <= i < |markers| ==> MarkerIs(j.items[i], markers[i])
  }

  lemma {:induction false} MarkersExact(items: seq<Json>, markers: seq<Marker>)
    ensures ReadMarkers(items) == Some(markers) <==> MarkersAre(JArr(items), markers)
    decreases |items|
  {
    if items != [] && |items| == |markers| {
      var n := |items| - 1;
      MarkersExact(items[..n], markers[..n]);
      MarkerExact(items[n], markers[n]);
      assert markers == markers[..n] + [markers[n]];
      assert MarkersAre(JArr(items), markers) <==>
        MarkersAre(JArr(items[..n]), markers[..n]) && MarkerIs(items[n], markers[n]);
    } else {
      ReadLength(items);
    }
  }

  lemma {:induction false} ReadLength(items: seq<Json>)
    ensures ReadMarkers(items).Some? ==> |ReadMarkers(items).value| == |items|
  {
    if items != [] {
      ReadLength(items[..|items| - 1]);
    }
  }

  /** The farmer a row describes. */
  ghost predicate FarmerIs(address: string, row: I.Row, f: Farmer) {
    && f == Farmer(address, row.id, row.registered, row.createdLedger, row.updatedLedger, f.metadata,
                   row.metadataHash, f.markers)
    && MetadataIs(row.metadata, f.metadata) && MarkersAre(row.markers, f.markers)
  }

  lemma RowExactly(address: string, row: I.Row)
    ensures forall f :: ReadRow(address, row) == Ok(f) <==> FarmerIs(address, row, f)
    ensures ReadRow(address, row) == Err(Internal) <==> forall f :: !FarmerIs(address, row, f)
  {
    var r := ReadRow(address, row);
    forall f ensures r == Ok(f) <==> FarmerIs(address, row, f) {
      MetadataExact(row.metadata, f.metadata);
      if row.markers.JArr? {
        MarkersExact(row.markers.items, f.markers);
      }
    }
  }

  /** A lookup gives the farmer of the row at the address named, and otherwise says why not. */
  lemma LookupExactly(libs: Libs, farmers: Table, input: string)
    ensures
      var r := Lookup(libs, farmers, input);
      && (forall f :: r == Ok(f) <==>
            && Names(libs, input, f.address) && f.address in farmers
            && FarmerIs(f.address, farmers[f.address], f))
      && (r == Err(BadRequest) <==> forall a :: !Names(libs, input, a))
      && (r == Err(NotFound) <==> exists a :: Names(libs, input, a) && a !in farmers)
  {
    NamesExact(libs, input);
    var parsed := ParseFarmerIdentifier(libs, input);
    if parsed.Some? && parsed.value in farmers {
      RowExactly(parsed.value, farmers[parsed.value]);
    }
  }

  /** The row an update leaves: profile, hash and updated ledger are new, the rest stays. */
  ghost predicate Renewed(libs: Libs, w: World, t: World, a: string, m: Metadata)
    requires a in w.chain
  {
    var ledger := 100_000 + |w.chain|;
    && t.chain == w.chain[a := ChainFarmer(w.chain[a].created, ledger)]
    && t.farmers.Keys == w.farmers.Keys && (forall k :: k in w.farmers && k != a ==> t.farmers[k] == w.farmers[k])
    && (a in w.farmers ==>
          var row := w.farmers[a];
          t.farmers[a] == I.Row(row.id, ToJson(m), libs.hash(m), row.registered, row.createdLedger, Some(ledger),
                                row.markers))
  }

  /** When each answer of an update is given, and what it leaves behind. */
  lemma UpdateExactly(libs: Libs, w: World, input: string, m: Metadata, actor: string, writes: bool)
    requires PlainAddresses(libs)
    ensures
      var (t, r) := Update(libs, w, input, m, actor, writes);
      var good := Good(libs, input, m, None, actor);
      var written := good && actor in w.chain && writes;
      && (r == Err(Unauthorized) <==> NamesAnother(libs, input, actor))
      && (r == Err(BadRequest) <==> !NamesAnother(libs, input, actor) && !good)
      && (r == Err(NotFound) <==> good && (actor !in w.chain || (writes && actor !in w.farmers)))
      && (r == Err(Database) <==> good && actor in w.chain && !writes)
      && (forall f :: r == Ok(f) <==> written && actor in w.farmers && FarmerIs(actor, t.farmers[actor], f))
      && (written ==> Renewed(libs, w, t, actor, m))
      && (!good || actor !in w.chain ==> t == w)
      && (r == Err(Database) ==>
            && t.farmers == w.farmers
            && t.chain == w.chain[actor := ChainFarmer(w.chain[actor].created, 100_000 + |w.chain|)])
  {
    AdmitExactly(libs, input, m, None, actor);
    if Good(libs, input, m, None, actor) && actor in w.chain && writes {
      BothForms(libs, actor);
      var farmers := Update(libs, w, input, m, actor, writes).0.farmers;
      if actor in farmers {
        RowExactly(actor, farmers[actor]);
      }
    }
  }

  class StubChain {
    var store: Chain

    constructor ()
      ensures store == map[]
    {
      store := map[];
    }

    method Register(address: string) returns (r: Result<ChainFarmer, ChainError>)
      modifies this
      ensures (store, r) == ChainRegister(old(store), address)
    {
      if address in store {
        return Err(AlreadyRegistered);
      }
      var ledger := FIRST_LEDGER + |store|;
      var farmer := ChainFarmer(ledger, ledger);
      store := store[address := farmer];
      r := Ok(farmer);
    }

    method UpdateMetadata(address: string) returns (r: Result<ChainFarmer, ChainError>)
      modifies this
      ensures (store, r) == ChainUpdate(old(store), address)
    {
      var len := |store|;
      if address !in store {
        return Err(Unknown);
      }
      var farmer := ChainFarmer(store[address].created, FIRST_LEDGER + len);
      store := store[address := farmer];
      r := Ok(farmer);
    }
  }

  class FarmerService {
    const libs: Libs
    const chain: StubChain
    var farmers: Table

    constructor (libs: Libs, chain: StubChain)
      ensures this.libs == libs && this.chain == chain && farmers == map[]
    {
      this.libs, this.chain := libs, chain;
      farmers := map[];
    }

    function Both(): World
      reads this, chain
    {
      World(farmers, chain.store)
    }

    method RegisterFarmer(input: string, m: Metadata, provided: Option<string>, actor: string, writes: bool)
      returns (r: Result<Farmer, Error>)
      modifies this, chain
      ensures (Both(), r) == Register(libs, old(Both()), input, m, provided, actor, writes)
    {
      var parsed := ParseFarmerIdentifier(libs, input);
      if parsed.None? {
        return Err(BadRequest);
      }
      var address := parsed.value;
      if actor != address {
        return Err(Unauthorized);
      }
      if Blank(m.name) {
        return Err(BadRequest);
      }
      var canonicalHash := libs.hash(m);
      if provided.Some? && provided.value != canonicalHash {
        return Err(BadRequest);
      }
      var registered := chain.Register(address);
      if registered.Err? {
        return Err(Conflict);
      }
      var farmer := registered.value;
      if !writes || Taken(farmers, address) {
        return Err(Database);
      }
      farmers := farmers[address := I.Row(I.FarmerId(address), ToJson(m), canonicalHash, true,
                                          Some(farmer.created), Some(farmer.updated), JArr([]))];
      r := Ok(Farmer(address, I.FarmerId(address), true, Some(farmer.created), Some(farmer.updated), m,
                     canonicalHash, []));
    }

    method GetFarmer(input: string) returns (r: Result<Farmer, Error>)
      ensures r == Lookup(libs, farmers, input)
    {
      var parsed := ParseFarmerIdentifier(libs, input);
      if parsed.None? {
        return Err(BadRequest);
      }
      if parsed.value !in farmers {
        return Err(NotFound);
      }
      r := ReadRow(parsed.value, farmers[parsed.value]);
    }

    method UpdateMetadata(input: string, m: Metadata, actor: string, writes: bool) returns (r: Result<Farmer, Error>)
      modifies this, chain
      ensures (Both(), r) == Update(libs, old(Both()), input, m, actor, writes)
    {
      var parsed := ParseFarmerIdentifier(libs, input);
      if parsed.None? {
        return Err(BadRequest);
      }
      var address := parsed.value;
      if actor != address {
        return Err(Unauthorized);
      }
      if Blank(m.name) {
        return Err(BadRequest);
      }
      var updated := chain.UpdateMetadata(address);
      if updated.Err? {
        return Err(NotFound);
      }
      if !writes {
        return Err(Database);
      }
      if address in farmers {
        farmers := farmers[address := farmers[address].(metadata := ToJson(m), metadataHash := libs.hash(m),
                                                        updatedLedger := Some(updated.value.updated))];
      }
      r := GetFarmer(address);
    }
  }
}
