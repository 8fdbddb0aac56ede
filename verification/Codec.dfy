/** Messages as streams of typed tokens: what the encoders push, the decoders pop back. */
module Codec {

  import opened Wrappers

  type int64 = i: int | -0x8000_0000_0000_0000 <= i < 0x8000_0000_0000_0000
  type int32 = i: int | -0x8000_0000 <= i < 0x8000_0000
  type uint32 = i: int | 0 <= i < 0x1_0000_0000

  datatype Token =
    | Boolean(b: bool)
    | Floating(x: real)
    | Int64(i: int64)
    | UInt32(u: uint32)
    | Structure(fields: seq<Token>)
    | Array(elements: seq<Token>)

  // ----- The entities -----

  datatype Position = Position(latitude: real, longitude: real, altitude: Option<real>,
                               horizontal: Option<real>, vertical: Option<real>)

  datatype Criteria = Criteria(position: bool, altitude: bool, heading: bool, velocity: bool,
                               horizontal: real, vertical: Option<real>,
                               velocityAccuracy: Option<real>, headingAccuracy: Option<real>)

  datatype Update = Update(value: Position, when: int64)

  datatype Key = Key(system: int32, id: uint32)

  datatype SpaceVehicle = SpaceVehicle(key: Key, snr: real, almanac: bool, ephimeris: bool, used: bool,
                                       azimuth: real, elevation: real)

  // ----- What is pushed for each -----

  function OptionalTokens(o: Option<real>): seq<Token> {
    if o.Some? then [Boolean(true), Floating(o.value)] else [Boolean(false)]
  }

  /** Three measures that may be missing. */
  function OptionalsTokens(a: Option<real>, b: Option<real>, c: Option<real>): seq<Token> {
    OptionalTokens(a) + (OptionalTokens(b) + OptionalTokens(c))
  }

  function PositionTokens(p: Position): seq<Token> {
    [Floating(p.latitude), Floating(p.longitude)]
    + OptionalsTokens(p.altitude, p.horizontal, p.vertical)
  }

  /** The measures that are never missing. */
  function CriteriaHead(c: Criteria): seq<Token> {
    [Boolean(c.position), Boolean(c.altitude), Boolean(c.heading), Boolean(c.velocity), Floating(c.horizontal)]
  }

  function CriteriaTokens(c: Criteria): seq<Token> {
    CriteriaHead(c) + OptionalsTokens(c.vertical, c.velocityAccuracy, c.headingAccuracy)
  }

  function UpdateTokens(u: Update): seq<Token> {
    PositionTokens(u.value) + [Int64(u.when)]
  }

  /** The enumerator goes through an unsigned integer of the same width. */
  function AsUnsigned(i: int32): uint32 {
    if i < 0 then i + 0x1_0000_0000 else i
  }

  function AsSigned(u: uint32): int32 {
    if u >= 0x8000_0000 then u - 0x1_0000_0000 else u
  }

  function VehicleFields(v: SpaceVehicle): seq<Token> {
    [UInt32(AsUnsigned(v.key.system)), UInt32(v.key.id), Floating(v.snr),
     Boolean(v.almanac), Boolean(v.ephimeris), Boolean(v.used), Floating(v.azimuth), Floating(v.elevation)]
  }

  function VehicleToken(v: SpaceVehicle): Token {
    Structure(VehicleFields(v))
  }

  // ----- What a stream begins with -----

  datatype Parsed<T> = Fails | Parses(value: T, rest: seq<Token>)

  function OptionalAt(t: seq<Token>): Parsed<Option<real>> {
    if t == [] || !t[0].Boolean? then Fails
    else if !t[0].b then Parses(None, t[1..])
    else if |t| == 1 || !t[1].Floating? then Fails
    else Parses(Some(t[1].x), t[2..])
  }

  function ThreeOptionalsAt(t: seq<Token>): Parsed<(Option<real>, Option<real>, Option<real>)> {
    match OptionalAt(t)
    case Fails => Fails
    case Parses(a, t1) =>
      match OptionalAt(t1)
      case Fails => Fails
      case Parses(b, t2) =>
        match OptionalAt(t2)
        case Fails => Fails
        case Parses(c, t3) => Parses((a, b, c), t3)
  }

  function PositionAt(t: seq<Token>): Parsed<Position> {
    if |t| < 2 || !t[0].Floating? || !t[1].Floating? then Fails
    else
      match ThreeOptionalsAt(t[2..])
      case Fails => Fails
      case Parses((a, h, v), rest) => Parses(Position(t[0].x, t[1].x, a, h, v), rest)
  }

  function CriteriaAt(t: seq<Token>): Parsed<Criteria> {
    if |t| < 5 || !t[0].Boolean? || !t[1].Boolean? || !t[2].Boolean? || !t[3].Boolean? || !t[4].Floating? then Fails
    else
      match ThreeOptionalsAt(t[5..])
      case Fails => Fails
      case Parses((v, s, h), rest) => Parses(Criteria(t[0].b, t[1].b, t[2].b, t[3].b, t[4].x, v, s, h), rest)
  }

  function UpdateAt(t: seq<Token>): Parsed<Update> {
    match PositionAt(t)
    case Fails => Fails
    case Parses(p, rest) =>
      if rest == [] || !rest[0].Int64? then Fails else Parses(Update(p, rest[0].i), rest[1..])
  }

  function VehicleAt(t: Token): Option<SpaceVehicle> {
    if !t.Structure? then None
    else
      var f := t.fields;
      if |f| < 8 || !f[0].UInt32? || !f[1].UInt32? || !f[2].Floating? || !f[3].Boolean? || !f[4].Boolean?
         || !f[5].Boolean? || !f[6].Floating? || !f[7].Floating? then None
      else Some(SpaceVehicle(Key(AsSigned(f[0].u), f[1].u), f[2].x, f[3].b, f[4].b, f[5].b, f[6].x, f[7].x))
  }

  lemma OptionalParses(t: seq<Token>, o: Option<real>, rest: seq<Token>)
    ensures t == OptionalTokens(o) + rest <==> OptionalAt(t) == Parses(o, rest)
  {
    if t == OptionalTokens(o) + rest {
      assert t[0] == OptionalTokens(o)[0];
      assert rest == t[|OptionalTokens(o)|..];
    }
  }

  lemma ThreeOptionalsParse(t: seq<Token>, a: Option<real>, b: Option<real>, c: Option<real>, rest: seq<Token>)
    ensures t == OptionalsTokens(a, b, c) + rest
       <==> ThreeOptionalsAt(t) == Parses((a, b, c), rest)
  {
    var t2 := OptionalTokens(c) + rest;
    var t1 := OptionalTokens(b) + t2;
    HeadApart(OptionalTokens(a), OptionalTokens(b) + OptionalTokens(c), rest);
    HeadApart(OptionalTokens(b), OptionalTokens(c), rest);
    OptionalParses(t, a, t1);
    OptionalParses(t1, b, t2);
    OptionalParses(t2, c, rest);
    if ThreeOptionalsAt(t) == Parses((a, b, c), rest) {
      var u1 := OptionalAt(t).rest;
      OptionalParses(t, a, u1);
      var u2 := OptionalAt(u1).rest;
      OptionalParses(u1, b, u2);
      OptionalParses(u2, c, rest);
    }
  }

  lemma HeadApart<T>(head: seq<T>, tail: seq<T>, r: seq<T>)
    ensures (head + tail) + r == head + (tail + r)
  {
  }

  /** A stream parses as a position, with so much left, exactly when it is the encoding of that
      position followed by what is left. */
  lemma PositionParses(t: seq<Token>, p: Position, rest: seq<Token>)
    ensures t == PositionTokens(p) + rest <==> PositionAt(t) == Parses(p, rest)
  {
    var head := [Floating(p.latitude), Floating(p.longitude)];
    var tail := OptionalsTokens(p.altitude, p.horizontal, p.vertical);
    HeadApart(head, tail, rest);
    HeadParts(t, head, tail + rest);
    if |t| >= 2 {
      ThreeOptionalsParse(t[2..], p.altitude, p.horizontal, p.vertical, rest);
    }
  }

  lemma HeadParts(t: seq<Token>, head: seq<Token>, tail: seq<Token>)
    ensures t == head + tail <==>
      |t| >= |head| && t[|head|..] == tail && forall i :: 0 <= i < |head| ==> t[i] == head[i]
  {
  }

  /** The part that is never missing, field by field. */
  lemma CriteriaHeadParses(t: seq<Token>, c: Criteria, tail: seq<Token>)
    ensures t == CriteriaHead(c) + tail
       <==> |t| >= 5 && t[5..] == tail
            && t[0] == Boolean(c.position) && t[1] == Boolean(c.altitude)
            && t[2] == Boolean(c.heading) && t[3] == Boolean(c.velocity) && t[4] == Floating(c.horizontal)
  {
    HeadParts(t, CriteriaHead(c), tail);
  }

  lemma CriteriaParses(t: seq<Token>, c: Criteria, rest: seq<Token>)
    ensures t == CriteriaTokens(c) + rest <==> CriteriaAt(t) == Parses(c, rest)
  {
    var tail := OptionalsTokens(c.vertical, c.velocityAccuracy, c.headingAccuracy);
    HeadApart(CriteriaHead(c), tail, rest);
    CriteriaHeadParses(t, c, tail + rest);
    if |t| >= 5 {
      ThreeOptionalsParse(t[5..], c.vertical, c.velocityAccuracy, c.headingAccuracy, rest);
    }
  }

  lemma UpdateParses(t: seq<Token>, u: Update, rest: seq<Token>)
    ensures t == UpdateTokens(u) + rest <==> UpdateAt(t) == Parses(u, rest)
  {
    var r := [Int64(u.when)] + rest;
    HeadApart(PositionTokens(u.value), [Int64(u.when)], rest);
    PositionParses(t, u.value, r);
    if UpdateAt(t) == Parses(u, rest) {
      var s := PositionAt(t).rest;
      assert s == r;
    }
  }

  /** Fields after those of a vehicle do not matter. */
  lemma VehicleParses(t: Token, v: SpaceVehicle)
    ensures VehicleAt(t) == Some(v) <==> exists extra :: t == Structure(VehicleFields(v) + extra)
    ensures VehicleAt(VehicleToken(v)) == Some(v)
  {
    forall extra | t == Structure(VehicleFields(v) + extra)
      ensures VehicleAt(t) == Some(v)
    {
      assert forall i :: 0 <= i < 8 ==> t.fields[i] == VehicleFields(v)[i];
    }
    if VehicleAt(t) == Some(v) {
      assert t.fields == VehicleFields(v) + t.fields[8..];
    }
  }

  // ----- Images on the wire -----

  /** The letter of the message bus for the type of a token. */
  function Letter(t: Token): char {
    match t
    case Boolean(_) => 'b'
    case Floating(_) => 'd'
    case Int64(_) => 'x'
    case UInt32(_) => 'u'
    case Structure(_) => 'r'
    case Array(_) => 'a'
  }

  /** The fields of a vehicle have the types of the signature that the program declares. */
  lemma VehicleHasItsSignature(v: SpaceVehicle)
    ensures |VehicleFields(v)| == |"uudbbbdd"|
    ensures forall i :: 0 <= i < 8 ==> Letter(VehicleFields(v)[i]) == "uudbbbdd"[i]
  {
  }

  /** An image of each, with every field told apart. */
  lemma {:induction false} Images()
    ensures PositionTokens(Position(1.0, 2.0, Some(3.0), Some(4.0), None))
         == [Floating(1.0), Floating(2.0), Boolean(true), Floating(3.0), Boolean(true), Floating(4.0), Boolean(false)]
    ensures UpdateTokens(Update(Position(1.0, 2.0, None, None, Some(3.0)), 4))
         == [Floating(1.0), Floating(2.0), Boolean(false), Boolean(false), Boolean(true), Floating(3.0), Int64(4)]
    ensures CriteriaTokens(Criteria(true, false, true, false, 1.0, Some(2.0), None, Some(3.0)))
         == [Boolean(true), Boolean(false), Boolean(true), Boolean(false), Floating(1.0),
             Boolean(true), Floating(2.0), Boolean(false), Boolean(true), Floating(3.0)]
    ensures CriteriaTokens(Criteria(true, true, false, false, 1.0, None, Some(2.0), None))
         == [Boolean(true), Boolean(true), Boolean(false), Boolean(false), Floating(1.0),
             Boolean(false), Boolean(true), Floating(2.0), Boolean(false)]
    ensures VehicleToken(SpaceVehicle(Key(4, 7), 1.0, true, false, true, 2.0, 3.0))
         == Structure([UInt32(4), UInt32(7), Floating(1.0), Boolean(true), Boolean(false), Boolean(true),
                       Floating(2.0), Floating(3.0)])
    ensures VehicleToken(SpaceVehicle(Key(-1, 7), 1.0, true, true, false, 2.0, 3.0))
         == Structure([UInt32(0xffff_ffff), UInt32(7), Floating(1.0), Boolean(true), Boolean(true), Boolean(false),
                       Floating(2.0), Floating(3.0)])
  {
  }

  // ----- The visible space vehicles, a map that is sent as an array -----

  /** The vehicles up to the first malformed element. */
  function VehiclesOf(elements: seq<Token>): (vs: seq<SpaceVehicle>)
    ensures |vs| <= |elements|
  {
    if elements == [] then []
    else
      match VehicleAt(elements[0])
      case None => []
      case Some(v) => [v] + VehiclesOf(elements[1..])
  }

  /** They are the decoded elements, and the next one, if there is one, is malformed. */
  lemma {:induction false} VehiclesStopAtMalformed(elements: seq<Token>)
    ensures var vs := VehiclesOf(elements);
      && (forall i :: 0 <= i < |vs| ==> VehicleAt(elements[i]) == Some(vs[i]))
      && (|vs| < |elements| ==> VehicleAt(elements[|vs|]) == None)
    decreases |elements|
  {
    if elements != [] && VehicleAt(elements[0]).Some? {
      VehiclesStopAtMalformed(elements[1..]);
      assert forall i :: 0 <= i < |elements| - 1 ==> elements[1..][i] == elements[i + 1];
    }
  }

  /** Each under its own key, unless the key is taken. */
  function Filed(vs: seq<SpaceVehicle>, out: map<Key, SpaceVehicle>): map<Key, SpaceVehicle> {
    if vs == [] then out
    else Filed(vs[1..], if vs[0].key in out then out else out[vs[0].key := vs[0]])
  }

  predicate UnderOwnKeys(m: map<Key, SpaceVehicle>) {
    forall k :: k in m ==> m[k].key == k
  }

  predicate Less(j: Key, k: Key) {
    if j.system != k.system then j.system < k.system else j.id < k.id
  }

  predicate Sorted(keys: seq<Key>) {
    forall i, j :: 0 <= i < j < |keys| ==> Less(keys[i], keys[j])
  }

  ghost predicate InOrder(keys: seq<Key>, m: map<Key, SpaceVehicle>) {
    Sorted(keys) && forall k :: k in keys <==> k in m
  }

  function ValuesOf(m: map<Key, SpaceVehicle>, keys: seq<Key>): (vs: seq<SpaceVehicle>)
    requires forall k :: k in keys ==> k in m
    ensures |vs| == |keys|
    ensures forall i :: 0 <= i < |vs| ==> vs[i] == m[keys[i]]
  {
    seq(|keys|, i requires 0 <= i < |keys| => m[keys[i]])
  }

  function TokensOf(vs: seq<SpaceVehicle>): (ts: seq<Token>)
    ensures |ts| == |vs|
    ensures forall i :: 0 <= i < |ts| ==> ts[i] == VehicleToken(vs[i])
  {
    seq(|vs|, i requires 0 <= i < |vs| => VehicleToken(vs[i]))
  }

  lemma {:induction false} VehiclesParse(vs: seq<SpaceVehicle>)
    ensures VehiclesOf(TokensOf(vs)) == vs
  {
    if vs != [] {
      VehiclesParse(vs[1..]);
      VehicleParses(VehicleToken(vs[0]), vs[0]);
      assert TokensOf(vs)[1..] == TokensOf(vs[1..]);
    }
  }

  /** The first vehicle of a key is filed, unless the key was taken; no key is lost. */
  lemma {:induction false} FiledAt(vs: seq<SpaceVehicle>, out: map<Key, SpaceVehicle>, k: Key)
    ensures k in Filed(vs, out) <==> k in out || exists i :: 0 <= i < |vs| && vs[i].key == k
    ensures k in out ==> Filed(vs, out)[k] == out[k]
    ensures k !in out ==> forall i | FirstOf(vs, k, i) :: k in Filed(vs, out) && Filed(vs, out)[k] == vs[i]
  {
    if vs != [] {
      var rest := vs[1..];
      FiledAt(rest, if vs[0].key in out then out else out[vs[0].key := vs[0]], k);
      assert forall i :: 0 <= i < |rest| ==> rest[i] == vs[i + 1];
      forall i | FirstOf(vs, k, i) && i > 0
        ensures FirstOf(rest, k, i - 1)
      {
      }
    }
  }

  predicate FirstOf(vs: seq<SpaceVehicle>, k: Key, i: int) {
    0 <= i < |vs| && vs[i].key == k && forall j :: 0 <= j < i ==> vs[j].key != k
  }

  lemma FiledUnderOwnKeys(vs: seq<SpaceVehicle>, out: map<Key, SpaceVehicle>)
    requires UnderOwnKeys(out)
    ensures UnderOwnKeys(Filed(vs, out))
  {
  }

  /** A map sent as an array comes back, into an empty map, exactly when each of its entries is
      filed under its own key. */
  lemma {:induction false} MapSurvivesIffUnderOwnKeys(m: map<Key, SpaceVehicle>, keys: seq<Key>)
    requires InOrder(keys, m)
    ensures Filed(VehiclesOf(TokensOf(ValuesOf(m, keys))), map[]) == m <==> UnderOwnKeys(m)
  {
    var vs := ValuesOf(m, keys);
    VehiclesParse(vs);
    if UnderOwnKeys(m) {
      FiledBeside(m, keys, map[]);
      PlusNothing(m);
    } else {
      FiledUnderOwnKeys(vs, map[]);
    }
  }

  lemma PlusNothing(m: map<Key, SpaceVehicle>)
    ensures m + map[] == m
  {
  }

  /** Entries that are there already stay. */
  lemma {:induction false} MapJoinsTarget(m: map<Key, SpaceVehicle>, keys: seq<Key>, out: map<Key, SpaceVehicle>)
    requires InOrder(keys, m) && UnderOwnKeys(m)
    ensures Filed(VehiclesOf(TokensOf(ValuesOf(m, keys))), out) == m + out
  {
    VehiclesParse(ValuesOf(m, keys));
    FiledBeside(m, keys, out);
  }

  lemma {:induction false} FiledBeside(m: map<Key, SpaceVehicle>, keys: seq<Key>, out: map<Key, SpaceVehicle>)
    requires InOrder(keys, m) && UnderOwnKeys(m)
    ensures Filed(ValuesOf(m, keys), out) == m + out
  {
    var filed := Filed(ValuesOf(m, keys), out);
    forall k
      ensures k in filed <==> k in m + out
      ensures k in m + out ==> filed[k] == (m + out)[k]
    {
      FiledOwnAt(m, keys, out, k);
    }
  }

  lemma {:induction false} FiledOwnAt(m: map<Key, SpaceVehicle>, keys: seq<Key>, out: map<Key, SpaceVehicle>, k: Key)
    requires InOrder(keys, m) && UnderOwnKeys(m)
    ensures var filed := Filed(ValuesOf(m, keys), out);
      && (k in filed <==> k in m || k in out)
      && (k in out ==> filed[k] == out[k])
      && (k in m && k !in out ==> filed[k] == m[k])
  {
    var vs := ValuesOf(m, keys);
    FiledAt(vs, out, k);
    assert forall i :: 0 <= i < |vs| ==> vs[i].key == keys[i];
    if k in m {
      var i :| 0 <= i < |keys| && keys[i] == k;
      assert FirstOf(vs, k, i);
    }
  }

  lemma LeastExists(ks: set<Key>)
    requires ks != {}
    ensures exists k :: k in ks && forall j :: j in ks ==> j == k || Less(k, j)
  {
    var k :| k in ks;
    var rest := ks - {k};
    if rest != {} {
      LeastExists(rest);
      var l :| l in rest && forall j :: j in rest ==> j == l || Less(l, j);
      var least := if Less(k, l) then k else l;
      assert forall j :: j in ks ==> j == k || j in rest;
      assert least in ks && forall j :: j in ks ==> j == least || Less(least, j);
    } else {
      assert forall j :: j in ks ==> j == k || j in rest;
    }
  }

  // ----- Writing -----

  class Writer {
    var tokens: seq<Token>

    constructor ()
      ensures tokens == []
    {
      tokens := [];
    }

    method Push(t: Token)
      modifies this
      ensures tokens == old(tokens) + [t]
    {
      tokens := tokens + [t];
    }

    method EncodeOptional(o: Option<real>)
      modifies this
      ensures tokens == old(tokens) + OptionalTokens(o)
    {
      Push(Boolean(o.Some?));
      if o.Some? {
        Push(Floating(o.value));
      }
    }

    method EncodeOptionals(a: Option<real>, b: Option<real>, c: Option<real>)
      modifies this
      ensures tokens == old(tokens) + OptionalsTokens(a, b, c)
    {
      EncodeOptional(a);
      EncodeOptional(b);
      EncodeOptional(c);
    }

    method EncodePosition(p: Position)
      modifies this
      ensures tokens == old(tokens) + PositionTokens(p)
    {
      Push(Floating(p.latitude));
      Push(Floating(p.longitude));
      EncodeOptionals(p.altitude, p.horizontal, p.vertical);
    }

    method EncodeCriteriaHead(c: Criteria)
      modifies this
      ensures tokens == old(tokens) + CriteriaHead(c)
    {
      Push(Boolean(c.position));
      Push(Boolean(c.altitude));
      Push(Boolean(c.heading));
      Push(Boolean(c.velocity));
      Push(Floating(c.horizontal));
    }

    method EncodeCriteria(c: Criteria)
      modifies this
      ensures tokens == old(tokens) + CriteriaTokens(c)
    {
      EncodeCriteriaHead(c);
      EncodeOptionals(c.vertical, c.velocityAccuracy, c.headingAccuracy);
    }

    method EncodeUpdate(u: Update)
      modifies this
      ensures tokens == old(tokens) + UpdateTokens(u)
    {
      EncodePosition(u.value);
      Push(Int64(u.when));
    }

    method EncodeVehicle(v: SpaceVehicle)
      modifies this
      ensures tokens == old(tokens) + [VehicleToken(v)]
    {
      var sub := new Writer();
      sub.Push(UInt32(AsUnsigned(v.key.system)));
      sub.Push(UInt32(v.key.id));
      sub.Push(Floating(v.snr));
      sub.Push(Boolean(v.almanac));
      sub.Push(Boolean(v.ephimeris));
      sub.Push(Boolean(v.used));
      sub.Push(Floating(v.azimuth));
      sub.Push(Floating(v.elevation));
      assert sub.tokens == VehicleFields(v);
      Push(Structure(sub.tokens));
    }

    /** One structure for each value of the map, in the order of the keys. */
    method EncodeVehicles(m: map<Key, SpaceVehicle>) returns (ghost keys: seq<Key>)
      modifies this
      ensures InOrder(keys, m)
      ensures tokens == old(tokens) + [Array(TokensOf(ValuesOf(m, keys)))]
    {
      var sub := new Writer();
      var left := m.Keys;
      keys := [];
      while left != {}
        invariant fresh(sub) && left <= m.Keys && Sorted(keys)
        invariant forall k :: k in keys <==> k in m && k !in left
        invariant forall j, k :: j in keys && k in left ==> Less(j, k)
        invariant sub.tokens == TokensOf(ValuesOf(m, keys))
        invariant tokens == old(tokens)
        decreases |left|
      {
        LeastExists(left);
        var k :| k in left && forall j :: j in left ==> j == k || Less(k, j);
        sub.EncodeVehicle(m[k]);
        keys, left := keys + [k], left - {k};
      }
      Push(Array(sub.tokens));
    }
  }

  // ----- Reading -----

  class Reader {
    var tokens: seq<Token>

    constructor (tokens: seq<Token>)
      ensures this.tokens == tokens
    {
      this.tokens := tokens;
    }

    /** Popping the wrong type throws, and does not advance. */
    method PopBoolean() returns (r: Option<bool>)
      modifies this
      ensures r.Some? <==> old(tokens) != [] && old(tokens)[0].Boolean?
      ensures old(tokens) == if r.Some? then [Boolean(r.value)] + tokens else tokens
    {
      if tokens != [] && tokens[0].Boolean? {
        r := Some(tokens[0].b);
        tokens := tokens[1..];
      } else {
        r := None;
      }
    }

    method PopFloating() returns (r: Option<real>)
      modifies this
      ensures r.Some? <==> old(tokens) != [] && old(tokens)[0].Floating?
      ensures old(tokens) == if r.Some? then [Floating(r.value)] + tokens else tokens
    {
      if tokens != [] && tokens[0].Floating? {
        r := Some(tokens[0].x);
        tokens := tokens[1..];
      } else {
        r := None;
      }
    }

    method PopInt64() returns (r: Option<int64>)
      modifies this
      ensures r.Some? <==> old(tokens) != [] && old(tokens)[0].Int64?
      ensures old(tokens) == if r.Some? then [Int64(r.value)] + tokens else tokens
    {
      if tokens != [] && tokens[0].Int64? {
        r := Some(tokens[0].i);
        tokens := tokens[1..];
      } else {
        r := None;
      }
    }

    method PopUInt32() returns (r: Option<uint32>)
      modifies this
      ensures r.Some? <==> old(tokens) != [] && old(tokens)[0].UInt32?
      ensures old(tokens) == if r.Some? then [UInt32(r.value)] + tokens else tokens
    {
      if tokens != [] && tokens[0].UInt32? {
        r := Some(tokens[0].u);
        tokens := tokens[1..];
      } else {
        r := None;
      }
    }

    method DecodeOptional() returns (r: Option<Option<real>>)
      modifies this
      ensures r.Some? <==> OptionalAt(old(tokens)).Parses?
      ensures r.Some? ==> OptionalAt(old(tokens)) == Parses(r.value, tokens)
    {
      var given := PopBoolean();
      if given.None? {
        return None;
      }
      if !given.value {
        return Some(None);
      }
      var x := PopFloating();
      r := if x.Some? then Some(x) else None;
    }

    method DecodeOptionals() returns (r: Option<(Option<real>, Option<real>, Option<real>)>)
      modifies this
      ensures r.Some? <==> ThreeOptionalsAt(old(tokens)).Parses?
      ensures r.Some? ==> ThreeOptionalsAt(old(tokens)) == Parses(r.value, tokens)
    {
      var a := DecodeOptional();
      if a.None? {
        return None;
      }
      var b := DecodeOptional();
      if b.None? {
        return None;
      }
      var c := DecodeOptional();
      r := if c.Some? then Some((a.value, b.value, c.value)) else None;
    }

    method DecodePosition() returns (r: Option<Position>)
      modifies this
      ensures r.Some? <==> PositionAt(old(tokens)).Parses?
      ensures r.Some? ==> PositionAt(old(tokens)) == Parses(r.value, tokens)
    {
      var latitude := PopFloating();
      if latitude.None? {
        return None;
      }
      var longitude := PopFloating();
      if longitude.None? {
        return None;
      }
      assert tokens == old(tokens)[2..];
      var others := DecodeOptionals();
      if others.None? {
        return None;
      }
      r := Some(Position(latitude.value, longitude.value, others.value.0, others.value.1, others.value.2));
    }

    method DecodeNeeds() returns (r: Option<(bool, bool, bool, bool)>)
      modifies this
      ensures r.Some? <==> var t := old(tokens);
        |t| >= 4 && t[0].Boolean? && t[1].Boolean? && t[2].Boolean? && t[3].Boolean?
      ensures r.Some? ==> var t := old(tokens);
        r.value == (t[0].b, t[1].b, t[2].b, t[3].b) && tokens == t[4..]
    {
      var position := PopBoolean();
      if position.None? {
        return None;
      }
      var altitude := PopBoolean();
      if altitude.None? {
        return None;
      }
      assert tokens == old(tokens)[2..];
      var heading := PopBoolean();
      if heading.None? {
        return None;
      }
      var velocity := PopBoolean();
      r := if velocity.Some? then Some((position.value, altitude.value, heading.value, velocity.value)) else None;
    }

    method DecodeCriteria() returns (r: Option<Criteria>)
      modifies this
      ensures r.Some? <==> CriteriaAt(old(tokens)).Parses?
      ensures r.Some? ==> CriteriaAt(old(tokens)) == Parses(r.value, tokens)
    {
      var needs := DecodeNeeds();
      if needs.None? {
        return None;
      }
      var horizontal := PopFloating();
      if horizontal.None? {
        return None;
      }
      assert tokens == old(tokens)[5..];
      var others := DecodeOptionals();
      if others.None? {
        return None;
      }
      var n, o := needs.value, others.value;
      r := Some(Criteria(n.0, n.1, n.2, n.3, horizontal.value, o.0, o.1, o.2));
    }

    method DecodeUpdate() returns (r: Option<Update>)
      modifies this
      ensures r.Some? <==> UpdateAt(old(tokens)).Parses?
      ensures r.Some? ==> UpdateAt(old(tokens)) == Parses(r.value, tokens)
    {
      var value := DecodePosition();
      if value.None? {
        return None;
      }
      var when := PopInt64();
      r := if when.Some? then Some(Update(value.value, when.value)) else None;
    }

    method DecodeKey() returns (r: Option<Key>)
      modifies this
      ensures r.Some? <==> |old(tokens)| >= 2 && old(tokens)[0].UInt32? && old(tokens)[1].UInt32?
      ensures r.Some? ==> r.value == Key(AsSigned(old(tokens)[0].u), old(tokens)[1].u) && tokens == old(tokens)[2..]
    {
      var system := PopUInt32();
      if system.None? {
        return None;
      }
      var id := PopUInt32();
      r := if id.Some? then Some(Key(AsSigned(system.value), id.value)) else None;
    }

    /** Reads the next token, a structure, to the last field of a vehicle, and drops the rest of
        its fields. */
    method DecodeVehicle() returns (r: Option<SpaceVehicle>)
      requires tokens != []
      modifies this
      ensures r == VehicleAt(old(tokens)[0])
      ensures r.Some? ==> tokens == old(tokens)[1..]
    {
      if !tokens[0].Structure? {
        return None;
      }
      var sub := new Reader(tokens[0].fields);
      ghost var f := sub.tokens;
      tokens := tokens[1..];
      var key := sub.DecodeKey();
      if key.None? {
        return None;
      }
      var snr := sub.PopFloating();
      if snr.None? {
        return None;
      }
      assert sub.tokens == f[2..][1..] == f[3..];
      var almanac := sub.PopBoolean();
      if almanac.None? {
        return None;
      }
      assert sub.tokens == f[3..][1..] == f[4..];
      var ephimeris := sub.PopBoolean();
      if ephimeris.None? {
        return None;
      }
      assert sub.tokens == f[4..][1..] == f[5..];
      var used := sub.PopBoolean();
      if used.None? {
        return None;
      }
      assert sub.tokens == f[5..][1..] == f[6..];
      var azimuth := sub.PopFloating();
      if azimuth.None? {
        return None;
      }
      var elevation := sub.PopFloating();
      if elevation.None? {
        return None;
      }
      r := Some(SpaceVehicle(key.value, snr.value,
                             almanac.value, ephimeris.value, used.value, azimuth.value, elevation.value));
    }

    /** Files each vehicle of the array under its own key, unless the key is taken. A malformed
        element throws, and leaves what was filed before it. */
    method DecodeVehicles(out: map<Key, SpaceVehicle>) returns (done: bool, filed: map<Key, SpaceVehicle>)
      modifies this
      ensures old(tokens) == [] || !old(tokens)[0].Array? ==> !done && filed == out && tokens == old(tokens)
      ensures old(tokens) != [] && old(tokens)[0].Array? ==>
        var elements := old(tokens)[0].elements;
        && done == (|VehiclesOf(elements)| == |elements|)
        && filed == Filed(VehiclesOf(elements), out)
        && tokens == old(tokens)[1..]
    {
      filed := out;
      if tokens == [] || !tokens[0].Array? {
        return false, filed;
      }
      var sub := new Reader(tokens[0].elements);
      ghost var elements, seen := sub.tokens, 0;
      tokens := tokens[1..];
      while sub.tokens != []
        invariant seen + |sub.tokens| == |elements| && sub.tokens == elements[seen..]
        invariant forall k :: 0 <= k < seen ==> VehicleAt(elements[k]).Some?
        invariant Filed(VehiclesOf(elements), out) == Filed(VehiclesOf(sub.tokens), filed)
        invariant |VehiclesOf(elements)| == seen + |VehiclesOf(sub.tokens)|
        invariant tokens == old(tokens)[1..] && fresh(sub)
        decreases |sub.tokens|
      {
        var v := sub.DecodeVehicle();
        if v.None? {
          return false, filed;
        }
        if v.value.key !in filed {
          filed := filed[v.value.key := v.value];
        }
        seen := seen + 1;
      }
      done := true;
    }
  }
}

/** The engine's map of visible vehicles. */
module VisibleVehicles {
  import opened Codec

  /** Every vehicle replaces the one of its key. */
  function Merged(src: seq<SpaceVehicle>, dest: map<Key, SpaceVehicle>): map<Key, SpaceVehicle> {
    if src == [] then dest
    else Merged(src[1..], dest[src[0].key := src[0]])
  }

  predicate LastOf(src: seq<SpaceVehicle>, k: Key, i: int) {
    0 <= i < |src| && src[i].key == k && forall j :: i < j < |src| ==> src[j].key != k
  }

  lemma {:induction false} MergedAt(src: seq<SpaceVehicle>, dest: map<Key, SpaceVehicle>, k: Key, i: nat)
    requires LastOf(src, k, i)
    ensures k in Merged(src, dest) && Merged(src, dest)[k] == src[i]
    decreases i
  {
    var next := dest[src[0].key := src[0]];
    if i == 0 {
      KeptByMerge(src[1..], next, k);
    } else {
      MergedAt(src[1..], next, k, i - 1);
    }
  }

  lemma {:induction false} KeptByMerge(src: seq<SpaceVehicle>, dest: map<Key, SpaceVehicle>, k: Key)
    requires forall i :: 0 <= i < |src| ==> src[i].key != k
    ensures k in Merged(src, dest) <==> k in dest
    ensures k in dest ==> Merged(src, dest)[k] == dest[k]
  {
    if src != [] {
      KeptByMerge(src[1..], dest[src[0].key := src[0]], k);
    }
  }

  function MergedAll(updates: seq<seq<SpaceVehicle>>): map<Key, SpaceVehicle> {
    if updates == [] then map[]
    else Merged(updates[|updates| - 1], MergedAll(updates[..|updates| - 1]))
  }

  lemma MergeKeepsOwnKeys(src: seq<SpaceVehicle>, dest: map<Key, SpaceVehicle>)
    requires UnderOwnKeys(dest)
    ensures UnderOwnKeys(Merged(src, dest))
  {
  }

  /** After any run of updates the engine's map survives being sent. */
  lemma {:induction false} MergedMapSurvives(updates: seq<seq<SpaceVehicle>>, keys: seq<Key>)
    requires InOrder(keys, MergedAll(updates))
    ensures Filed(VehiclesOf(TokensOf(ValuesOf(MergedAll(updates), keys))), map[]) == MergedAll(updates)
  {
    MergedUnderOwnKeys(updates);
    MapSurvivesIffUnderOwnKeys(MergedAll(updates), keys);
  }

  lemma {:induction false} MergedUnderOwnKeys(updates: seq<seq<SpaceVehicle>>)
    ensures UnderOwnKeys(MergedAll(updates))
  {
    if updates != [] {
      MergedUnderOwnKeys(updates[..|updates| - 1]);
      MergeKeepsOwnKeys(updates[|updates| - 1], MergedAll(updates[..|updates| - 1]));
    }
  }

  class Visible {
    var vehicles: map<Key, SpaceVehicle>

    constructor ()
      ensures vehicles == map[]
    {
      vehicles := map[];
    }

    method Update(src: seq<SpaceVehicle>)
      modifies this
      ensures vehicles == Merged(src, old(vehicles))
      ensures UnderOwnKeys(old(vehicles)) ==> UnderOwnKeys(vehicles)
    {
      for i := 0 to |src|
        invariant Merged(src[i..], vehicles) == Merged(src, old(vehicles))
      {
        vehicles := vehicles[src[i].key := src[i]];
      }
      if UnderOwnKeys(old(vehicles)) {
        MergeKeepsOwnKeys(src, old(vehicles));
      }
    }
  }
}
