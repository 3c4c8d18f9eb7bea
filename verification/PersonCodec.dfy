/** The nullable record codecs of common/serialization_test.c on top of the buffer, with
    serialize and deserialize of common/serialize.c and common/deserialize.c dispatching to
    them.  A null pointer is None. */
module PersonCodec {
  import opened Basics
  import opened SerializedBuffer

  const NAME_SIZE: int := 30

  type Name = s: seq<Byte> | |s| == NAME_SIZE witness Zeros()

  function Zeros(): (r: seq<Byte>)
    ensures |r| == NAME_SIZE && forall i | 0 <= i < NAME_SIZE :: r[i] == 0
  {
    seq(NAME_SIZE, _ => 0)
  }

  datatype Occupation = Occupation(deptName: Name, employeeCode: Int32)
  datatype Person = Person(name: Name, age: Int32, occ: Option<Occupation>, weight: Int32)

  // ---------------------------------------------------------------- encoding

  function EncodeOccupation(o: Option<Occupation>): seq<Byte> {
    match o
    case None => SENTINEL
    case Some(occ) => occ.deptName + IntBytes(occ.employeeCode)
  }

  function Encode(p: Option<Person>): (r: seq<Byte>)
    ensures |r| >= 4
  {
    match p
    case None => SENTINEL
    case Some(person) =>
      person.name + IntBytes(person.age) + EncodeOccupation(person.occ) + IntBytes(person.weight)
  }

  function EncodeAll(ps: seq<Option<Person>>): seq<Byte> {
    if ps == [] then [] else Encode(ps[0]) + EncodeAll(ps[1..])
  }

  /** Names that do not look like the mark of an absent record. */
  predicate Marked(s: Name) { s[..4] == SENTINEL }

  predicate WellFormedOccupation(o: Option<Occupation>) {
    o.Some? ==> !Marked(o.value.deptName)
  }

  predicate WellFormed(p: Option<Person>) {
    p.Some? ==> !Marked(p.value.name) && WellFormedOccupation(p.value.occ)
  }

  // ---------------------------------------------------------------- decoding

  /** A field is read into a destination that calloc has zeroed. */
  function DecodeOccupation(bytes: seq<Byte>, pos: nat): (r: Read<Option<Occupation>>)
    requires pos <= |bytes| && DEFAULT_SIZE <= |bytes|
    ensures 0 <= r.pos <= |bytes|
  {
    var absent := ReadNull(bytes, pos);
    if absent.value then Read(None, absent.pos)
    else
      var dept := ReadData(bytes, absent.pos, Zeros());
      var code := ReadData(bytes, dept.pos, IntBytes(0));
      Read(Some(Occupation(dept.value, BytesInt(code.value))), code.pos)
  }

  function DecodePerson(bytes: seq<Byte>, pos: nat): (r: Read<Person>)
    requires pos <= |bytes| && DEFAULT_SIZE <= |bytes|
    ensures 0 <= r.pos <= |bytes|
  {
    var name := ReadData(bytes, pos, Zeros());
    var age := ReadData(bytes, name.pos, IntBytes(0));
    var occ := DecodeOccupation(bytes, age.pos);
    var weight := ReadData(bytes, occ.pos, IntBytes(0));
    Read(Person(name.value, BytesInt(age.value), occ.value, BytesInt(weight.value)), weight.pos)
  }

  function Decode(bytes: seq<Byte>, pos: nat): (r: Read<Option<Person>>)
    requires pos <= |bytes| && DEFAULT_SIZE <= |bytes|
    ensures 0 <= r.pos <= |bytes|
  {
    var absent := ReadNull(bytes, pos);
    if absent.value then Read(None, absent.pos)
    else
      var person := DecodePerson(bytes, absent.pos);
      Read(Some(person.value), person.pos)
  }

  function DecodeAll(bytes: seq<Byte>, pos: nat, count: nat): Read<seq<Option<Person>>>
    requires pos <= |bytes| && DEFAULT_SIZE <= |bytes|
    decreases count
  {
    if count == 0 then Read([], pos)
    else
      var first := Decode(bytes, pos);
      var rest := DecodeAll(bytes, first.pos, count - 1);
      Read([first.value] + rest.value, rest.pos)
  }

  // ---------------------------------------------------------------- decoding undoes encoding

  lemma ReadBackInt(bytes: seq<Byte>, pos: nat, x: Int32)
    requires Holds(bytes, pos, IntBytes(x))
    ensures pos <= |bytes|
    ensures ReadData(bytes, pos, IntBytes(0)).pos == pos + 4
    ensures BytesInt(ReadData(bytes, pos, IntBytes(0)).value) == x
  {
    IntRoundTrip(x);
  }

  /** The peek at a name answers whether it looks like the mark, and moves only if it does. */
  lemma PeekName(bytes: seq<Byte>, pos: nat, name: Name)
    requires Holds(bytes, pos, name) && DEFAULT_SIZE <= |bytes|
    ensures ReadNull(bytes, pos) == (if Marked(name) then Read(true, pos + 4) else Read(false, pos))
  {
    assert bytes[pos..pos + 4] == name[..4];
    PeekIsPure(bytes, pos);
  }

  lemma OccupationBack(bytes: seq<Byte>, pos: nat, o: Option<Occupation>)
    requires Holds(bytes, pos, EncodeOccupation(o)) && DEFAULT_SIZE <= |bytes|
    ensures DecodeOccupation(bytes, pos).value == o <==> WellFormedOccupation(o)
    ensures WellFormedOccupation(o) ==> DecodeOccupation(bytes, pos).pos == pos + |EncodeOccupation(o)|
  {
    match o
    case None => ReadBack(bytes, pos, SENTINEL, [0, 0, 0, 0]);
    case Some(occ) =>
      var code := IntBytes(occ.employeeCode);
      HoldsParts(bytes, pos, occ.deptName, code);
      PeekName(bytes, pos, occ.deptName);
      ReadBack(bytes, pos, occ.deptName, Zeros());
      ReadBackInt(bytes, pos + NAME_SIZE, occ.employeeCode);
  }

  lemma PersonParts(bytes: seq<Byte>, pos: nat, p: Person)
    requires Holds(bytes, pos, Encode(Some(p)))
    ensures var mid := pos + NAME_SIZE + 4;
      && Holds(bytes, pos, p.name) && Holds(bytes, pos + NAME_SIZE, IntBytes(p.age))
      && Holds(bytes, mid, EncodeOccupation(p.occ))
      && Holds(bytes, mid + |EncodeOccupation(p.occ)|, IntBytes(p.weight))
  {
    var head := p.name + IntBytes(p.age);
    HoldsParts(bytes, pos, head + EncodeOccupation(p.occ), IntBytes(p.weight));
    HoldsParts(bytes, pos, head, EncodeOccupation(p.occ));
    HoldsParts(bytes, pos, p.name, IntBytes(p.age));
  }

  lemma PersonBack(bytes: seq<Byte>, pos: nat, p: Person)
    requires Holds(bytes, pos, Encode(Some(p))) && DEFAULT_SIZE <= |bytes|
    ensures DecodePerson(bytes, pos).value == p <==> WellFormedOccupation(p.occ)
    ensures WellFormedOccupation(p.occ) ==> DecodePerson(bytes, pos).pos == pos + |Encode(Some(p))|
  {
    PersonParts(bytes, pos, p);
    ReadBack(bytes, pos, p.name, Zeros());
    ReadBackInt(bytes, pos + NAME_SIZE, p.age);
    OccupationBack(bytes, pos + NAME_SIZE + 4, p.occ);
    if WellFormedOccupation(p.occ) {
      ReadBackInt(bytes, pos + NAME_SIZE + 4 + |EncodeOccupation(p.occ)|, p.weight);
    }
  }

  /** Wherever an encoding stands in a buffer, decoding there gives back the record, and moves the
      cursor just past it, exactly when no name in the record looks like the mark. */
  lemma RoundTrip(bytes: seq<Byte>, pos: nat, p: Option<Person>)
    requires Holds(bytes, pos, Encode(p)) && DEFAULT_SIZE <= |bytes|
    ensures Decode(bytes, pos).value == p <==> WellFormed(p)
    ensures WellFormed(p) ==> Decode(bytes, pos).pos == pos + |Encode(p)|
  {
    match p
    case None => ReadBack(bytes, pos, SENTINEL, [0, 0, 0, 0]);
    case Some(person) =>
      PersonParts(bytes, pos, person);
      PeekName(bytes, pos, person.name);
      PersonBack(bytes, pos, person);
  }

  /** Reading on at the end of the buffer: the peek steps back over the last four bytes, the names
      do not fit and stay zero, and those four bytes become age and employee code. */
  lemma PastTheEnd(bytes: seq<Byte>)
    requires DEFAULT_SIZE <= |bytes|
    ensures var last := BytesInt(bytes[|bytes| - 4..]);
      Decode(bytes, |bytes|)
        == Read(Some(Person(Zeros(), last, Some(Occupation(Zeros(), last)), 0)), |bytes|)
  {
    var end := |bytes|;
    PeekIsPure(bytes, end);
    assert bytes[end - 4..end] == bytes[end - 4..];
    IntRoundTrip(0);
  }

  lemma SplitEqual(first: Option<Person>, rest: seq<Option<Person>>, ps: seq<Option<Person>>)
    requires ps != []
    ensures [first] + rest == ps <==> first == ps[0] && rest == ps[1..]
    ensures (forall p | p in ps :: WellFormed(p)) <==> WellFormed(ps[0]) && forall p | p in ps[1..] :: WellFormed(p)
  {
    assert ps == [ps[0]] + ps[1..];
    assert ([first] + rest)[0] == first && ([first] + rest)[1..] == rest;
  }

  lemma EncodeAllParts(bytes: seq<Byte>, pos: nat, ps: seq<Option<Person>>,
                       head: seq<Byte>, tail: seq<Byte>)
    requires ps != [] && Holds(bytes, pos, EncodeAll(ps))
    requires head == Encode(ps[0]) && tail == EncodeAll(ps[1..])
    ensures Holds(bytes, pos, head) && Holds(bytes, pos + |head|, tail)
  {
    assert EncodeAll(ps) == head + tail;
    HoldsParts(bytes, pos, head, tail);
  }

  /** The first record of a list: what comes back for it, and where the rest is read from. */
  lemma FirstBack(bytes: seq<Byte>, pos: nat, ps: seq<Option<Person>>)
    returns (first: Option<Person>, next: nat)
    requires ps != [] && Holds(bytes, pos, EncodeAll(ps)) && DEFAULT_SIZE <= |bytes|
    ensures next <= |bytes|
    ensures DecodeAll(bytes, pos, |ps|).value == [first] + DecodeAll(bytes, next, |ps| - 1).value
    ensures first == ps[0] <==> WellFormed(ps[0])
    ensures DecodeAll(bytes, pos, |ps|).pos == DecodeAll(bytes, next, |ps| - 1).pos
    ensures WellFormed(ps[0]) ==>
      Holds(bytes, next, EncodeAll(ps[1..])) && next + |EncodeAll(ps[1..])| == pos + |EncodeAll(ps)|
  {
    var read := Decode(bytes, pos);
    first, next := read.value, read.pos;
    EncodeAllParts(bytes, pos, ps, Encode(ps[0]), EncodeAll(ps[1..]));
    RoundTrip(bytes, pos, ps[0]);
  }

  /** A list comes back, and the cursor passes it, exactly when all of its records are well formed. */
  lemma {:induction false} RoundTripAll(bytes: seq<Byte>, pos: nat, ps: seq<Option<Person>>)
    requires Holds(bytes, pos, EncodeAll(ps)) && DEFAULT_SIZE <= |bytes|
    ensures DecodeAll(bytes, pos, |ps|).value == ps <==> forall p | p in ps :: WellFormed(p)
    ensures (forall p | p in ps :: WellFormed(p)) ==> DecodeAll(bytes, pos, |ps|).pos == pos + |EncodeAll(ps)|
    decreases ps
  {
    if ps != [] {
      var first, next := FirstBack(bytes, pos, ps);
      SplitEqual(first, DecodeAll(bytes, next, |ps| - 1).value, ps);
      if WellFormed(ps[0]) {
        RoundTripAll(bytes, next, ps[1..]);
      }
    }
  }

  /** No encoding of a well-formed record is a prefix of the encoding of another. */
  lemma SelfDelimiting(p: Option<Person>, q: Option<Person>)
    requires WellFormed(p) && WellFormed(q) && Encode(p) <= Encode(q)
    ensures p == q
  {
    var bytes := Encode(q) + seq(DEFAULT_SIZE, _ => 0);
    assert Holds(bytes, 0, Encode(q));
    assert Holds(bytes, 0, Encode(p)) by {
      assert bytes[0..|Encode(p)|] == Encode(q)[..|Encode(p)|];
    }
    RoundTrip(bytes, 0, p);
    RoundTrip(bytes, 0, q);
  }

  // ---------------------------------------------------------------- the codecs in place

  /** What a serializer does to a buffer that had `before` in front of the cursor. */
  twostate predicate Appended(buf: SerBuffer, data: seq<Byte>)
    reads buf, buf.b
  {
    && buf.Valid() && old(buf.Valid())
    && buf.next == old(buf.next) + |data| && buf.highWater == Max(old(buf.highWater), buf.next)
    && buf.b[..buf.next] == old(buf.b[..buf.next]) + data
    && (buf.b == old(buf.b) || fresh(buf.b))
  }

  /** serialize_data, as far as the codecs care. */
  method Append(buf: SerBuffer, data: seq<Byte>)
    requires buf.Valid() && buf.next + |data| <= MAX_SIZE
    modifies buf, buf.b
    ensures Appended(buf, data)
  {
    buf.SerializeData(data);
  }

  method SerializeOccupation(buf: SerBuffer, o: Option<Occupation>)
    requires buf.Valid() && buf.next + |EncodeOccupation(o)| <= MAX_SIZE
    modifies buf, buf.b
    ensures Appended(buf, EncodeOccupation(o))
  {
    if o.None? {
      buf.SerializeNull();
      return;
    }
    Append(buf, o.value.deptName);
    Append(buf, IntBytes(o.value.employeeCode));
  }

  lemma Regroup(start: seq<Byte>, a: seq<Byte>, b: seq<Byte>, c: seq<Byte>, d: seq<Byte>)
    ensures start + a + b + c + d == start + (a + b + c + d)
  {
  }

  method SerializePerson(buf: SerBuffer, p: Option<Person>)
    requires buf.Valid() && buf.next + |Encode(p)| <= MAX_SIZE
    modifies buf, buf.b
    ensures Appended(buf, Encode(p))
  {
    if p.None? {
      buf.SerializeNull();
      return;
    }
    var person := p.value;
    Regroup(buf.b[..buf.next], person.name, IntBytes(person.age), EncodeOccupation(person.occ),
            IntBytes(person.weight));
    Append(buf, person.name);
    Append(buf, IntBytes(person.age));
    SerializeOccupation(buf, person.occ);
    Append(buf, IntBytes(person.weight));
  }

  /** serialize: the null case is handled before the registered function is called. */
  method Serialize(buf: SerBuffer, p: Option<Person>)
    requires buf.Valid() && buf.next + |Encode(p)| <= MAX_SIZE
    modifies buf, buf.b
    ensures Appended(buf, Encode(p))
  {
    if p.None? {
      buf.SerializeData(SENTINEL);
      return;
    }
    SerializePerson(buf, p);
  }

  method DeserializeOccupation(buf: SerBuffer) returns (o: Option<Occupation>)
    requires buf.Valid()
    modifies buf
    ensures buf.Valid() && buf.b == old(buf.b) && buf.size == old(buf.size) && DEFAULT_SIZE <= buf.size
    ensures Read(o, buf.next) == DecodeOccupation(buf.b[..], old(buf.next))
  {
    DoubledLarge(buf.size);
    var isNull := buf.DeserializeNull();
    if isNull {
      return None;
    }
    var dept := buf.DeserializeData(Zeros());
    var code := buf.DeserializeData(IntBytes(0));
    return Some(Occupation(dept, BytesInt(code)));
  }

  method DeserializePerson(buf: SerBuffer) returns (p: Person)
    requires buf.Valid()
    modifies buf
    ensures buf.Valid() && buf.b == old(buf.b) && buf.size == old(buf.size) && DEFAULT_SIZE <= buf.size
    ensures Read(p, buf.next) == DecodePerson(buf.b[..], old(buf.next))
  {
    DoubledLarge(buf.size);
    var name := buf.DeserializeData(Zeros());
    var age := buf.DeserializeData(IntBytes(0));
    var occ := DeserializeOccupation(buf);
    var weight := buf.DeserializeData(IntBytes(0));
    return Person(name, BytesInt(age), occ, BytesInt(weight));
  }

  method Deserialize(buf: SerBuffer) returns (p: Option<Person>)
    requires buf.Valid()
    modifies buf
    ensures buf.Valid() && buf.b == old(buf.b) && buf.size == old(buf.size) && DEFAULT_SIZE <= buf.size
    ensures Read(p, buf.next) == Decode(buf.b[..], old(buf.next))
  {
    DoubledLarge(buf.size);
    var isNull := buf.DeserializeNull();
    if isNull {
      return None;
    }
    var person := DeserializePerson(buf);
    return Some(person);
  }

  // ---------------------------------------------------------------- whole lists

  lemma Associative(a: seq<Byte>, b: seq<Byte>, c: seq<Byte>)
    ensures (a + b) + c == a + (b + c)
  {
  }

  lemma {:induction false} EncodeAllJoins(ps: seq<Option<Person>>, qs: seq<Option<Person>>)
    ensures EncodeAll(ps + qs) == EncodeAll(ps) + EncodeAll(qs)
  {
    if ps == [] {
      assert ps + qs == qs;
    } else {
      var both := ps + qs;
      assert both[0] == ps[0] && both[1..] == ps[1..] + qs;
      calc {
        EncodeAll(both);
        Encode(ps[0]) + EncodeAll(both[1..]);
        { EncodeAllJoins(ps[1..], qs); }
        Encode(ps[0]) + (EncodeAll(ps[1..]) + EncodeAll(qs));
        { Associative(Encode(ps[0]), EncodeAll(ps[1..]), EncodeAll(qs)); }
        (Encode(ps[0]) + EncodeAll(ps[1..])) + EncodeAll(qs);
        EncodeAll(ps) + EncodeAll(qs);
      }
    }
  }

  lemma EncodeAllNext(ps: seq<Option<Person>>, i: nat)
    requires i < |ps|
    ensures EncodeAll(ps[..i + 1]) == EncodeAll(ps[..i]) + Encode(ps[i])
    ensures |EncodeAll(ps[..i])| + |Encode(ps[i])| <= |EncodeAll(ps)|
  {
    assert ps[..i + 1] == ps[..i] + [ps[i]] && ps == ps[..i + 1] + ps[i + 1..];
    EncodeAllJoins(ps[..i], [ps[i]]);
    EncodeAllJoins(ps[..i + 1], ps[i + 1..]);
    assert EncodeAll([ps[i]]) == Encode(ps[i]);
  }

  method SerializeAll(buf: SerBuffer, ps: seq<Option<Person>>)
    requires buf.Valid() && buf.next + |EncodeAll(ps)| <= MAX_SIZE
    modifies buf, buf.b
    ensures Appended(buf, EncodeAll(ps))
  {
    ghost var start := buf.b[..buf.next];
    for i := 0 to |ps|
      invariant buf.Valid() && (buf.b == old(buf.b) || fresh(buf.b))
      invariant buf.b[..buf.next] == start + EncodeAll(ps[..i])
      invariant buf.highWater == Max(old(buf.highWater), buf.next)
    {
      EncodeAllNext(ps, i);
      Associative(start, EncodeAll(ps[..i]), Encode(ps[i]));
      Serialize(buf, ps[i]);
    }
    assert ps[..|ps|] == ps;
  }

  lemma DecodeAllNext(bytes: seq<Byte>, pos: nat, count: nat, got: seq<Option<Person>>)
    requires pos <= |bytes| && DEFAULT_SIZE <= |bytes| && count > 0
    ensures var first := Decode(bytes, pos);
      && got + DecodeAll(bytes, pos, count).value
        == (got + [first.value]) + DecodeAll(bytes, first.pos, count - 1).value
      && DecodeAll(bytes, pos, count).pos == DecodeAll(bytes, first.pos, count - 1).pos
  {
  }

  method DeserializeAll(buf: SerBuffer, count: nat) returns (ps: seq<Option<Person>>)
    requires buf.Valid()
    modifies buf
    ensures buf.Valid() && buf.b == old(buf.b) && DEFAULT_SIZE <= buf.size
    ensures Read(ps, buf.next) == DecodeAll(buf.b[..], old(buf.next), count)
  {
    DoubledLarge(buf.size);
    ps := [];
    for i := 0 to count
      invariant buf.Valid() && buf.b == old(buf.b) && DEFAULT_SIZE <= buf.size
      invariant ps + DecodeAll(buf.b[..], buf.next, count - i).value
             == DecodeAll(buf.b[..], old(buf.next), count).value
      invariant DecodeAll(buf.b[..], buf.next, count - i).pos == DecodeAll(buf.b[..], old(buf.next), count).pos
    {
      DecodeAllNext(buf.b[..], buf.next, count - i, ps);
      var p := Deserialize(buf);
      ps := ps + [p];
    }
    assert DecodeAll(buf.b[..], buf.next, 0) == Read([], buf.next);
    assert ps + [] == ps;
  }

  /** The program's main for any list that fits: everything written to a fresh buffer is read
      back, exactly when no name looks like the mark of an absent record. */
  method Exchange(ps: seq<Option<Person>>) returns (back: seq<Option<Person>>)
    requires |EncodeAll(ps)| <= MAX_SIZE
    ensures back == ps <==> forall p | p in ps :: WellFormed(p)
  {
    var buf := new SerBuffer();
    SerializeAll(buf, ps);
    assert Holds(buf.b[..], 0, EncodeAll(ps)) by {
      assert buf.b[..buf.next] == [] + EncodeAll(ps);
      assert buf.b[..][0..buf.next] == buf.b[..buf.next];
    }
    DoubledLarge(buf.size);
    RoundTripAll(buf.b[..], 0, ps);
    buf.Reset();
    back := DeserializeAll(buf, |ps|);
  }
}
