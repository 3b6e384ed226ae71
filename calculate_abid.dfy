/** `calculate_abid`: the fallback policy that turns a record's ABID prefix and
    its four source values into the arguments of the ABID encoder. */
module AbidDerivation {
  import opened Values

  /** The three representations of an ABID that `calculate_abid` requires to be
      present before it returns. */
  datatype Abid = Abid(ulid: string, uuid: string, typeid: string)

  /** The keyword arguments `abid_from_values` receives; `ts` is seconds since the epoch. */
  datatype Inputs = Inputs(prefix: string, ts: int, uri: string, subtype: string, rand: Value)

  /** The encoder `abid_from_values`, whose internals are not part of this model:
      any deterministic total function from the inputs to an ABID. */
  type Encoder = Inputs -> Abid

  /** What the record supplies: its `abid_prefix` and what its four `abid_*_src`
      accessors read. A timestamp is a datetime (always truthy) or `None`. */
  datatype Sources = Sources(prefix: string, ts: Option<int>, uri: string, subtype: string, rand: Value)

  /** What `calculate_abid` reads from the record itself to fill placeholders:
      `str(self)`, the class name, and the attributes `uuid`, `id` and `pk`
      (`uuid` is `Null` when the record has no such attribute). */
  datatype Record = Record(display: string, className: string, uuid: Value, id: Value, pk: Value)

  /** The four derivation inputs that have a fallback. */
  datatype Role = Timestamp | Uri | Subtype | Rand

  datatype Error =
    | MissingPrefix(className: string)    // the `Exception` raised for an unset prefix
    | IncompleteAbid(prefix: string)      // the assertion that ulid, uuid and typeid are all set

  datatype Result = Ok(value: Abid) | Err(error: Error)

  /** The placeholder prefix a model inherits when it defines none. */
  const SentinelPrefix: string := "obj_"

  /** `datetime.utcfromtimestamp(0)`, as seconds since the epoch. */
  const Epoch: int := 0

  predicate ValidPrefix(prefix: string) {
    prefix != "" && prefix != SentinelPrefix
  }

  predicate Complete(abid: Abid) {
    abid.ulid != "" && abid.uuid != "" && abid.typeid != ""
  }

  /** `getattr(self, 'uuid', None) or getattr(self, 'id', None) or getattr(self, 'pk')`:
      the first truthy of `uuid`, `id`, `pk`, and `pk` itself when none is truthy. */
  function RandPlaceholder(rec: Record): (v: Value)
    ensures Truthy(rec.uuid) ==> v == rec.uuid
    ensures !Truthy(rec.uuid) && Truthy(rec.id) ==> v == rec.id
    ensures !Truthy(rec.uuid) && !Truthy(rec.id) ==> v == rec.pk
    ensures Truthy(v) <==> Truthy(rec.uuid) || Truthy(rec.id) || Truthy(rec.pk)
  {
    Or(rec.uuid, Or(rec.id, rec.pk))
  }

  /** The inputs after each falsy source value is replaced by its placeholder:
      a truthy value reaches the encoder unchanged, a falsy one as epoch 0,
      `str(self)`, the class name or the rand placeholder. */
  function Resolve(src: Sources, rec: Record): (inp: Inputs)
    ensures inp.prefix == src.prefix
    ensures src.ts.Some? ==> inp.ts == src.ts.value
    ensures src.ts.None? ==> inp.ts == Epoch
    ensures src.uri != "" ==> inp.uri == src.uri
    ensures src.uri == "" ==> inp.uri == rec.display
    ensures src.subtype != "" ==> inp.subtype == src.subtype
    ensures src.subtype == "" ==> inp.subtype == rec.className
    ensures Truthy(src.rand) ==> inp.rand == src.rand
    ensures !Truthy(src.rand) ==> inp.rand == RandPlaceholder(rec)
  {
    Inputs(
      src.prefix,
      if src.ts.Some? then src.ts.value else Epoch,
      if src.uri != "" then src.uri else rec.display,
      if src.subtype != "" then src.subtype else rec.className,
      if Truthy(src.rand) then src.rand else RandPlaceholder(rec))
  }

  /** The placeholder warnings `calculate_abid` prints, in the order it prints
      them: one per falsy source value, and none at all when the prefix is
      rejected, since the exception is raised before any of them. */
  function Warnings(src: Sources): (w: seq<Role>)
    ensures !ValidPrefix(src.prefix) ==> w == []
    ensures ValidPrefix(src.prefix) ==> (Timestamp in w <==> src.ts.None?)
    ensures ValidPrefix(src.prefix) ==> (Uri in w <==> src.uri == "")
    ensures ValidPrefix(src.prefix) ==> (Subtype in w <==> src.subtype == "")
    ensures ValidPrefix(src.prefix) ==> (Rand in w <==> !Truthy(src.rand))
    ensures forall j, k :: 0 <= j < k < |w| ==> RoleOrder(w[j]) < RoleOrder(w[k])
  {
    if !ValidPrefix(src.prefix) then []
    else
      (if src.ts.None? then [Timestamp] else [])
      + (if src.uri == "" then [Uri] else [])
      + (if src.subtype == "" then [Subtype] else [])
      + (if !Truthy(src.rand) then [Rand] else [])
  }

  /** The position of a role's warning in `calculate_abid`. */
  function RoleOrder(role: Role): nat {
    match role
    case Timestamp => 0
    case Uri => 1
    case Subtype => 2
    case Rand => 3
  }

  /** `calculate_abid(self)`: reject a missing or sentinel prefix, fill the
      placeholders, encode, and check that all three representations are set. */
  function CalculateAbid(encode: Encoder, src: Sources, rec: Record): (r: Result)
    ensures r.Err? && r.error.MissingPrefix? <==> !ValidPrefix(src.prefix)
    ensures r.Err? && r.error.IncompleteAbid? <==>
              ValidPrefix(src.prefix) && !Complete(encode(Resolve(src, rec)))
    ensures r.Ok? ==> Complete(r.value) && r.value == encode(Resolve(src, rec))
  {
    if !ValidPrefix(src.prefix) then Err(MissingPrefix(rec.className))
    else
      var abid := encode(Resolve(src, rec));
      if Complete(abid) then Ok(abid) else Err(IncompleteAbid(src.prefix))
  }

  /** A missing or sentinel prefix raises, whatever the other inputs are, and
      no ABID is produced. */
  lemma PrefixRejected(encode: Encoder, src: Sources, rec: Record)
    requires src.prefix == "" || src.prefix == SentinelPrefix
    ensures CalculateAbid(encode, src, rec) == Err(MissingPrefix(rec.className))
  {
  }

  /** With an accepted prefix, the warnings name exactly the substituted inputs:
      a role without a warning reaches the encoder unchanged, a role with one
      reaches it as its placeholder. */
  lemma FallbackPolicy(src: Sources, rec: Record)
    requires ValidPrefix(src.prefix)
    ensures Resolve(src, rec).ts == if Timestamp in Warnings(src) then Epoch else src.ts.value
    ensures Resolve(src, rec).uri == if Uri in Warnings(src) then rec.display else src.uri
    ensures Resolve(src, rec).subtype == if Subtype in Warnings(src) then rec.className else src.subtype
    ensures Resolve(src, rec).rand == if Rand in Warnings(src) then RandPlaceholder(rec) else src.rand
  {
  }

  /** When every source value is truthy nothing is printed and the encoder sees
      exactly the source values. */
  lemma TruthySourcesPassThrough(encode: Encoder, src: Sources, rec: Record)
    requires ValidPrefix(src.prefix)
    requires src.ts.Some? && src.uri != "" && src.subtype != "" && Truthy(src.rand)
    requires Complete(encode(Inputs(src.prefix, src.ts.value, src.uri, src.subtype, src.rand)))
    ensures Warnings(src) == []
    ensures CalculateAbid(encode, src, rec) == Ok(encode(Inputs(src.prefix, src.ts.value, src.uri, src.subtype, src.rand)))
  {
  }

  /** Determinism (the same record and sources always give the same ABID) is
      immediate for a function; what matters is that only the resolved inputs
      decide the result: sources that resolve alike give the same ABID. */
  lemma OnlyResolvedInputsMatter(encode: Encoder, src1: Sources, src2: Sources, rec1: Record, rec2: Record)
    requires src1.prefix == src2.prefix
    requires Resolve(src1, rec1) == Resolve(src2, rec2)
    requires ValidPrefix(src1.prefix) || rec1.className == rec2.className
    ensures CalculateAbid(encode, src1, rec1) == CalculateAbid(encode, src2, rec2)
  {
  }
}
