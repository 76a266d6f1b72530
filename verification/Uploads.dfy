/**
 Processing one upload (backend/app/services/product_service.py, `process_upload`) and
 the two vector-store collections it writes. The foreign services -- file access, image
 processing, embedding models, catalog enrichment, duplicate search -- are functions
 held in `Services`; each may raise.
 */
module Uploads {
  import opened Wrappers
  import opened Jobs
  import opened Facets

  type Vector = seq<real>

  datatype Failure = ChecksumFailed | ImageRejected | EmbeddingFailed | EnrichmentFailed | DetectionFailed
                   | Conflict | ValidationFailed | VectorStoreFailed

  /** The text an attempt that ends in this failure records. */
  function Message(f: Failure): string {
    match f
    case ChecksumFailed => "The stored file could not be read."
    case ImageRejected => "The image was rejected."
    case EmbeddingFailed => "Embedding failed."
    case EnrichmentFailed => "Catalog enrichment failed."
    case DetectionFailed => "Duplicate detection failed."
    case Conflict => "This product appears to be a duplicate of an existing product."
    case ValidationFailed => "The product fields are not valid."
    case VectorStoreFailed => "Failed to upsert vectors."
  }

  datatype DetectionMode = OFF | WARN | BLOCK

  datatype Attributes = Attributes(color: Option<string>, material: Option<string>, gender: Option<string>,
                                   season: Option<string>, style: Option<string>)

  datatype CatalogResult = CatalogResult(attributes: Attributes, tags: seq<string>, qualityScore: real)

  datatype Metadata = Metadata(name: string, brand: Option<string>, category: Option<string>, price: Option<real>,
                               description: Option<string>, attributes: Attributes, tags: seq<string>,
                               qualityScore: real, imageFilename: string,
                               brandKey: Option<string>, categoryKey: Option<string>)

  datatype VectorRecord = VectorRecord(vector: Vector, metadata: Metadata)

  /** The image and the text collection: at most one record per product, because a write is an upsert by product id. */
  datatype Store = Store(images: map<ProductId, VectorRecord>, texts: map<ProductId, VectorRecord>)

  datatype Services = Services(
    tables: CharTables,
    catalogEnabled: bool,
    checksum: string -> Result<string, Failure>,
    processImage: string -> Result<string, Failure>,
    embedImage: string -> Result<Vector, Failure>,
    embedText: string -> Result<Vector, Failure>,
    enrich: (ProductCreate, string) -> Result<CatalogResult, Failure>,
    detect: (Payload, CatalogResult, Store) -> Result<bool, Failure>,
    roundPrice: real -> real)

  /** The two records one upload wants to write. */
  datatype Plan = Plan(image: VectorRecord, text: VectorRecord)

  function TrimOrNone(t: CharTables, v: Option<string>): Option<string> {
    match v
    case None => None
    case Some(s) => if Strip(t, s) == "" then None else Some(Strip(t, s))
  }

  function JoinSentences(parts: seq<string>): string {
    if |parts| == 0 then "" else if |parts| == 1 then parts[0] else parts[0] + ". " + JoinSentences(parts[1..])
  }

  function OptionalPart(t: CharTables, v: Option<string>): seq<string> {
    match TrimOrNone(t, v)
    case None => []
    case Some(s) => [s]
  }

  /** The natural-language text of a product, from the raw submitted fields. */
  function TextRepresentation(t: CharTables, p: ProductCreate): string {
    JoinSentences([Strip(t, p.name)] + OptionalPart(t, p.brand) + OptionalPart(t, p.category) + OptionalPart(t, p.description))
  }

  function Enrichment(svc: Services, p: ProductCreate, processed: string): Result<CatalogResult, Failure> {
    if svc.catalogEnabled then svc.enrich(p, processed)
    else Ok(CatalogResult(Attributes(None, None, None, None, None), [], 0.0))
  }

  function RoundedPrice(svc: Services, p: Option<real>): Option<real> {
    match p
    case None => None
    case Some(x) => Some(svc.roundPrice(x))
  }

  function MetadataOf(svc: Services, payload: Payload, catalog: CatalogResult): Metadata {
    var p := payload.product;
    var brand := TrimOrNone(svc.tables, p.brand);
    var category := NormalizeFacet(svc.tables, p.category);
    Metadata(Strip(svc.tables, p.name), brand, category, RoundedPrice(svc, p.price),
             TrimOrNone(svc.tables, p.description), catalog.attributes, catalog.tags, catalog.qualityScore,
             payload.image.storedFilename,
             NormalizeFacet(svc.tables, brand), NormalizeFacet(svc.tables, category))
  }

  predicate ValidFields(m: Metadata) {
    m.name != "" && (m.price.Some? ==> m.price.value >= 0.0)
  }

  /** What duplicate detection lets through: everything but an error, and in BLOCK mode a reported duplicate. */
  function Gate(svc: Services, mode: DetectionMode, payload: Payload, catalog: CatalogResult, store: Store): Option<Failure> {
    if mode == OFF then None
    else match svc.detect(payload, catalog, store)
         case Err(e) => Some(e)
         case Ok(isDuplicate) => if isDuplicate && mode == BLOCK then Some(Conflict) else None
  }

  /** Everything `process_upload` does before its first write, in order. */
  function Prepare(svc: Services, mode: DetectionMode, payload: Payload, store: Store): Result<Plan, Failure> {
    match svc.checksum(payload.image.storedFilename)
    case Err(e) => Err(e)
    case Ok(_) =>
    match svc.processImage(payload.image.storedFilename)
    case Err(e) => Err(e)
    case Ok(processed) =>
    match svc.embedImage(processed)
    case Err(e) => Err(e)
    case Ok(imageVector) =>
    match svc.embedText(TextRepresentation(svc.tables, payload.product))
    case Err(e) => Err(e)
    case Ok(textVector) =>
    match Enrichment(svc, payload.product, processed)
    case Err(e) => Err(e)
    case Ok(catalog) =>
    match Gate(svc, mode, payload, catalog, store)
    case Some(e) => Err(e)
    case None =>
      var metadata := MetadataOf(svc, payload, catalog);
      if ValidFields(metadata) then Ok(Plan(VectorRecord(imageVector, metadata), VectorRecord(textVector, metadata)))
      else Err(ValidationFailed)
  }

  /** The records of a single fault-free run on an otherwise idle system, if the payload can be processed at all. */
  function Target(svc: Services, payload: Payload): Result<Plan, Failure> {
    Prepare(svc, OFF, payload, Store(map[], map[]))
  }

  // ----- What the records contain -----

  /** Nothing, or a full stop and the stripped value. */
  function Sentence(t: CharTables, v: Option<string>): string {
    match v
    case None => ""
    case Some(s) => if Strip(t, s) == "" then "" else ". " + Strip(t, s)
  }

  /** The name, then brand, category and description as submitted, leaving out what is missing or blank. */
  lemma TextIsSentences(t: CharTables, p: ProductCreate)
    ensures TextRepresentation(t, p)
         == Strip(t, p.name) + Sentence(t, p.brand) + Sentence(t, p.category) + Sentence(t, p.description)
  {
    var first, b, c, d := [Strip(t, p.name)], OptionalPart(t, p.brand), OptionalPart(t, p.category), OptionalPart(t, p.description);
    JoinMore(first, b);
    JoinMore(first + b, c);
    JoinMore(first + b + c, d);
  }

  /** One more part, or none. */
  lemma {:induction false} JoinMore(parts: seq<string>, more: seq<string>)
    requires parts != [] && |more| <= 1
    ensures JoinSentences(parts + more) == JoinSentences(parts) + if more == [] then "" else ". " + more[0]
  {
    if more == [] {
      assert parts + more == parts;
    } else if |parts| == 1 {
      assert (parts + more)[1..] == more;
    } else {
      assert (parts + more)[1..] == parts[1..] + more;
      JoinMore(parts[1..], more);
    }
  }

  /** The submitted value stripped, or nothing if there is nothing to it. */
  predicate Trimmed(t: CharTables, submitted: Option<string>, shown: Option<string>) {
    if submitted.None? || Strip(t, submitted.value) == "" then shown == None else shown == Some(Strip(t, submitted.value))
  }

  /** The metadata shows the submitted fields, each in its place, and the catalog's findings. */
  predicate ShowsProduct(svc: Services, payload: Payload, processed: string, m: Metadata) {
    var p, t := payload.product, svc.tables;
    && m.name == Strip(t, p.name) && m.name != ""
    && Trimmed(t, p.brand, m.brand) && Trimmed(t, p.description, m.description)
    && m.category == NormalizeFacet(t, p.category)
    && (p.price.None? <==> m.price.None?) && (p.price.Some? ==> m.price.value == svc.roundPrice(p.price.value) && m.price.value >= 0.0)
    && m.imageFilename == payload.image.storedFilename
    && m.brandKey == NormalizeFacet(t, m.brand) && m.categoryKey == NormalizeFacet(t, m.category)
    && if svc.catalogEnabled
       then svc.enrich(p, processed) == Ok(CatalogResult(m.attributes, m.tags, m.qualityScore))
       else m.attributes == Attributes(None, None, None, None, None) && m.tags == [] && m.qualityScore == 0.0
  }

  /**
   The image record holds the embedding of the processed image, the text record that of the product's text,
   and both the same metadata.
   */
  predicate Describes(svc: Services, payload: Payload, image: VectorRecord, text: VectorRecord) {
    var p, t := payload.product, svc.tables;
    && svc.processImage(payload.image.storedFilename).Ok?
    && var processed := svc.processImage(payload.image.storedFilename).value;
       && svc.embedImage(processed) == Ok(image.vector)
       && svc.embedText(Strip(t, p.name) + Sentence(t, p.brand) + Sentence(t, p.category) + Sentence(t, p.description)) == Ok(text.vector)
       && ShowsProduct(svc, payload, processed, image.metadata) && text.metadata == image.metadata
  }

  /** The fault-free records are exactly those that describe the product, of a file that could be read. */
  lemma TargetExactly(svc: Services, payload: Payload, plan: Plan)
    ensures Target(svc, payload) == Ok(plan)
       <==> svc.checksum(payload.image.storedFilename).Ok? && Describes(svc, payload, plan.image, plan.text)
  {
    TextIsSentences(svc.tables, payload.product);
    if svc.checksum(payload.image.storedFilename).Ok? && Describes(svc, payload, plan.image, plan.text) {
      var processed := svc.processImage(payload.image.storedFilename).value;
      MetadataDetermined(svc, payload, processed, plan.image.metadata);
    }
  }

  lemma MetadataDetermined(svc: Services, payload: Payload, processed: string, m: Metadata)
    requires ShowsProduct(svc, payload, processed, m)
    ensures Enrichment(svc, payload.product, processed).Ok?
    ensures m == MetadataOf(svc, payload, Enrichment(svc, payload.product, processed).value) && ValidFields(m)
  {
  }

  /** The error of an attempt is that of the first thing to go wrong, in this order. */
  ghost predicate FirstToFail(svc: Services, mode: DetectionMode, payload: Payload, store: Store, e: Failure) {
    var file, p, t := payload.image.storedFilename, payload.product, svc.tables;
    var text := Strip(t, p.name) + Sentence(t, p.brand) + Sentence(t, p.category) + Sentence(t, p.description);
    if svc.checksum(file).Err? then e == svc.checksum(file).error
    else if svc.processImage(file).Err? then e == svc.processImage(file).error
    else var processed := svc.processImage(file).value;
         if svc.embedImage(processed).Err? then e == svc.embedImage(processed).error
         else if svc.embedText(text).Err? then e == svc.embedText(text).error
         else if svc.catalogEnabled && svc.enrich(p, processed).Err? then e == svc.enrich(p, processed).error
         else var catalog := if svc.catalogEnabled then svc.enrich(p, processed).value
                             else CatalogResult(Attributes(None, None, None, None, None), [], 0.0);
              var found := svc.detect(payload, catalog, store);
              if mode != OFF && found.Err? then e == found.error
              else if mode == BLOCK && found.value then e == Conflict
              else e == ValidationFailed && (Strip(t, p.name) == "" || (p.price.Some? && svc.roundPrice(p.price.value) < 0.0))
  }

  lemma PrepareFails(svc: Services, mode: DetectionMode, payload: Payload, store: Store)
    ensures Prepare(svc, mode, payload, store).Err? ==> FirstToFail(svc, mode, payload, store, Prepare(svc, mode, payload, store).error)
  {
    TextIsSentences(svc.tables, payload.product);
  }

  /** Both collections hold exactly the fault-free records under pid. */
  ghost predicate Converged(svc: Services, payload: Payload, pid: ProductId, store: Store) {
    && Target(svc, payload).Ok?
    && pid in store.images && store.images[pid] == Target(svc, payload).value.image
    && pid in store.texts && store.texts[pid] == Target(svc, payload).value.text
  }

  /** The two stores agree on every product but pid. */
  ghost predicate OnlyTouches(pid: ProductId, before: Store, after: Store) {
    && before.images - {pid} == after.images - {pid}
    && before.texts - {pid} == after.texts - {pid}
  }

  /**
   Where an upload may be interrupted: before, between or after its two writes, by a fault that is not
   its own doing.
   */
  datatype Interruption = BeforeWrites | BetweenWrites | AfterWrites

  function PutImage(store: Store, pid: ProductId, plan: Plan): Store {
    store.(images := store.images[pid := plan.image])
  }

  function PutText(store: Store, pid: ProductId, plan: Plan): Store {
    store.(texts := store.texts[pid := plan.text])
  }

  function Writes(plan: Plan, pid: ProductId, store: Store, fault: Option<Interruption>): Store {
    match fault
    case Some(BeforeWrites) => store
    case Some(BetweenWrites) => PutImage(store, pid, plan)
    case _ => PutText(PutImage(store, pid, plan), pid, plan)
  }

  /** The store after an attempt that gets as far as `fault` says (None: all the way). */
  function AttemptEffect(svc: Services, mode: DetectionMode, payload: Payload, pid: ProductId, store: Store,
                         fault: Option<Interruption>): Store
  {
    match Prepare(svc, mode, payload, store)
    case Err(_) => store
    case Ok(plan) => Writes(plan, pid, store, fault)
  }

  predicate AttemptSucceeds(svc: Services, mode: DetectionMode, payload: Payload, store: Store, fault: Option<Interruption>) {
    fault.None? && Prepare(svc, mode, payload, store).Ok?
  }

  /** The store the service keeps, updated in place by each upload. */
  class ProductService {
    const svc: Services
    const mode: DetectionMode
    var store: Store

    constructor (svc: Services, mode: DetectionMode, store: Store)
      ensures this.svc == svc && this.mode == mode && this.store == store
    {
      this.svc, this.mode, this.store := svc, mode, store;
    }

    /** `fault` is where the vector store or the machine gives out, if it does. */
    method ProcessUpload(payload: Payload, productId: ProductId, fault: Option<Interruption>) returns (r: Result<ProductId, Failure>)
      modifies this
      ensures store == AttemptEffect(svc, mode, payload, productId, old(store), fault)
      ensures r.Ok? <==> AttemptSucceeds(svc, mode, payload, old(store), fault)
      ensures r.Ok? ==> r.value == productId && Converged(svc, payload, productId, store)
      ensures r.Ok? ==> Describes(svc, payload, store.images[productId], store.texts[productId])
      ensures r.Err? ==> (fault.Some? && r.error == VectorStoreFailed) || FirstToFail(svc, mode, payload, old(store), r.error)
      ensures OnlyTouches(productId, old(store), store)
    {
      var prepared := Prepare(svc, mode, payload, store);
      PrepareFails(svc, mode, payload, store);
      if prepared.Err? {
        return Err(prepared.error);
      }
      var plan := prepared.value;
      AttemptFacts(svc, mode, payload, productId, store, fault);
      TargetExactly(svc, payload, plan);
      if fault == Some(BeforeWrites) {
        return Err(VectorStoreFailed);
      }
      store := PutImage(store, productId, plan);
      if fault == Some(BetweenWrites) {
        return Err(VectorStoreFailed);
      }
      store := PutText(store, productId, plan);
      if fault == Some(AfterWrites) {
        return Err(VectorStoreFailed);
      }
      r := Ok(productId);
    }
  }

  lemma AttemptFacts(svc: Services, mode: DetectionMode, payload: Payload, pid: ProductId, store: Store, fault: Option<Interruption>)
    requires Prepare(svc, mode, payload, store).Ok?
    ensures var plan := Prepare(svc, mode, payload, store).value;
            && AttemptEffect(svc, mode, payload, pid, store, fault) == Writes(plan, pid, store, fault)
            && OnlyTouches(pid, store, Writes(plan, pid, store, fault))
            && Target(svc, payload) == Ok(plan)
            && Converged(svc, payload, pid, Writes(plan, pid, store, None))
  {
    PrepareIsTarget(svc, mode, payload, store);
    WritesTouch(Prepare(svc, mode, payload, store).value, pid, store, fault);
  }

  lemma WritesTouch(plan: Plan, pid: ProductId, store: Store, fault: Option<Interruption>)
    ensures OnlyTouches(pid, store, Writes(plan, pid, store, fault))
  {
  }

  /** An attempt that reaches its writes writes the fault-free records, whatever the mode and whatever the store. */
  lemma PrepareIsTarget(svc: Services, mode: DetectionMode, payload: Payload, store: Store)
    ensures Prepare(svc, mode, payload, store).Ok? ==> Prepare(svc, mode, payload, store) == Target(svc, payload)
  {
  }

  /** The catalog result the services give a payload, once it gets that far. */
  function CatalogOf(svc: Services, payload: Payload): CatalogResult
    requires Target(svc, payload).Ok?
  {
    Enrichment(svc, payload.product, svc.processImage(payload.image.storedFilename).value).value
  }

  /** An attempt at a processable payload gets through exactly when the duplicate gate does not stop it. */
  lemma PreparesIffGateOpen(svc: Services, mode: DetectionMode, payload: Payload, store: Store)
    requires Target(svc, payload).Ok?
    ensures Prepare(svc, mode, payload, store).Ok? <==> Gate(svc, mode, payload, CatalogOf(svc, payload), store).None?
  {
  }

  // ----- Retrying an attempt -----

  /** The store after a sequence of interrupted attempts at one payload. */
  function Replay(svc: Services, mode: DetectionMode, payload: Payload, pid: ProductId, store: Store,
                  faults: seq<Interruption>): Store
    decreases faults
  {
    if faults == [] then store
    else Replay(svc, mode, payload, pid, AttemptEffect(svc, mode, payload, pid, store, Some(faults[0])), faults[1..])
  }

  /** What interrupted attempts can have left behind in each collection: nothing, or the planned record. */
  ghost predicate Partial(plan: Plan, pid: ProductId, from: Store, store: Store) {
    && (store.images == from.images || store.images == from.images[pid := plan.image])
    && (store.texts == from.texts || store.texts == from.texts[pid := plan.text])
  }

  lemma WritesKeepPartial(plan: Plan, pid: ProductId, from: Store, store: Store, fault: Option<Interruption>)
    requires Partial(plan, pid, from, store)
    ensures Partial(plan, pid, from, Writes(plan, pid, store, fault))
    ensures Writes(plan, pid, store, None) == Writes(plan, pid, from, None)
  {
  }

  lemma {:induction false} ReplayLeavesPartial(svc: Services, mode: DetectionMode, payload: Payload, pid: ProductId,
                                               from: Store, store: Store, faults: seq<Interruption>)
    requires Target(svc, payload).Ok? && Partial(Target(svc, payload).value, pid, from, store)
    ensures Partial(Target(svc, payload).value, pid, from, Replay(svc, mode, payload, pid, store, faults))
    decreases faults
  {
    if faults != [] {
      var plan := Target(svc, payload).value;
      var next := AttemptEffect(svc, mode, payload, pid, store, Some(faults[0]));
      PrepareIsTarget(svc, mode, payload, store);
      assert next == store || next == Writes(plan, pid, store, Some(faults[0]));
      WritesKeepPartial(plan, pid, from, store, Some(faults[0]));
      ReplayLeavesPartial(svc, mode, payload, pid, from, next, faults[1..]);
    }
  }

  /** What detection says about the payload lets an attempt through. */
  predicate DetectionPermits(svc: Services, mode: DetectionMode, payload: Payload, store: Store)
    requires Target(svc, payload).Ok?
  {
    var found := svc.detect(payload, CatalogOf(svc, payload), store);
    mode == OFF || (found.Ok? && (mode == BLOCK ==> !found.value))
  }

  /**
   Idempotent under retries: after any number of attempts interrupted anywhere, one attempt that succeeds leaves
   exactly the store of a single fault-free run from the start. It succeeds with detection off, in WARN mode
   whenever the detector answers on what the interrupted attempts left behind, and in BLOCK mode when it answers
   that there is no duplicate -- and in no other case.
   */
  lemma {:induction false} RetriesConverge(svc: Services, mode: DetectionMode, payload: Payload, pid: ProductId,
                                           store: Store, faults: seq<Interruption>)
    requires Target(svc, payload).Ok?
    ensures var left := Replay(svc, mode, payload, pid, store, faults);
            && (AttemptSucceeds(svc, mode, payload, left, None) <==> DetectionPermits(svc, mode, payload, left))
            && (AttemptSucceeds(svc, mode, payload, left, None) ==>
                  AttemptEffect(svc, mode, payload, pid, left, None) == AttemptEffect(svc, OFF, payload, pid, store, None)
                  && Converged(svc, payload, pid, AttemptEffect(svc, mode, payload, pid, left, None)))
  {
    var left := Replay(svc, mode, payload, pid, store, faults);
    ReplayLeavesPartial(svc, mode, payload, pid, store, store, faults);
    WritesKeepPartial(Target(svc, payload).value, pid, store, left, None);
    PrepareIsTarget(svc, mode, payload, left);
    PrepareIsTarget(svc, OFF, payload, store);
    PreparesIffGateOpen(svc, mode, payload, left);
    PreparesIffGateOpen(svc, OFF, payload, store);
  }

  /**
   In BLOCK mode convergence fails: with any detector that finds an indexed image of the same product,
   an attempt interrupted between its writes blocks every later attempt.
   */
  lemma {:induction false} BlockModeCanBlockItself(svc: Services, payload: Payload, pid: ProductId, store: Store, more: seq<Interruption>)
    requires Target(svc, payload).Ok?
    requires svc.detect(payload, CatalogOf(svc, payload), store) == Ok(false)
    requires svc.detect(payload, CatalogOf(svc, payload), PutImage(store, pid, Target(svc, payload).value)) == Ok(true)
    ensures var left := Replay(svc, BLOCK, payload, pid, store, [BetweenWrites] + more);
            && left == PutImage(store, pid, Target(svc, payload).value)
            && !AttemptSucceeds(svc, BLOCK, payload, left, None)
            && AttemptSucceeds(svc, BLOCK, payload, store, None)
  {
    var stuck := PutImage(store, pid, Target(svc, payload).value);
    PreparesIffGateOpen(svc, BLOCK, payload, store);
    PreparesIffGateOpen(svc, BLOCK, payload, stuck);
    PrepareIsTarget(svc, BLOCK, payload, store);
    StuckStays(svc, payload, pid, stuck, more);
    assert ([BetweenWrites] + more)[1..] == more;
  }

  lemma {:induction false} StuckStays(svc: Services, payload: Payload, pid: ProductId, stuck: Store, more: seq<Interruption>)
    requires Prepare(svc, BLOCK, payload, stuck).Err?
    ensures Replay(svc, BLOCK, payload, pid, stuck, more) == stuck
  {
    if more != [] { StuckStays(svc, payload, pid, stuck, more[1..]); }
  }

  /** The filter keys written at ingest are the canonical keys of the raw submitted values. */
  lemma IngestKeysAreCanonical(svc: Services, payload: Payload, catalog: CatalogResult)
    requires ValidTables(svc.tables)
    ensures MetadataOf(svc, payload, catalog).brandKey == NormalizeFacet(svc.tables, payload.product.brand)
    ensures MetadataOf(svc, payload, catalog).categoryKey == NormalizeFacet(svc.tables, payload.product.category)
  {
    NormalizeIdempotent(svc.tables, payload.product.category);
    if payload.product.brand.Some? {
      StripThenNormalize(svc.tables, payload.product.brand.value);
      assert NormalizeFacet(svc.tables, Some("")) == None;
    }
  }
}
