// How `storage.rs` keeps a stream: the frozen v1 record, with the curve and
// the optional v2 fields in side-cars that are absent for the defaults.
module Storage {
  import opened Prelude
  import opened Types

  function Lookup<K, V>(m: map<K, V>, k: K): Option<V> {
    if k in m then Some(m[k]) else None
  }

  /** Set the entry, or remove it. */
  function Put<K, V>(m: map<K, V>, k: K, v: Option<V>): map<K, V> {
    if v.Some? then m[k := v.value] else m - {k}
  }

  function CurveEntry(s: Stream): Option<ReleaseCurve> {
    if s.curve == Linear then None else Some(s.curve)
  }

  function MetadataEntry(s: Stream): Option<StreamMetadata> {
    if s.cliffMode != DEFAULT_CLIFF_MODE || s.reference.Some?
    then Some(StreamMetadata(s.cliffMode, s.reference)) else None
  }

  function Decode(record: StreamRecord, curve: Option<ReleaseCurve>, metadata: Option<StreamMetadata>): Stream {
    var s := IntoStream(record, if curve.Some? then curve.value else Linear);
    if metadata.Some? then s.(cliffMode := metadata.value.cliffMode, reference := metadata.value.reference) else s
  }

  function StoredStreams(records: map<U64, StreamRecord>, curves: map<U64, ReleaseCurve>,
                         metadata: map<U64, StreamMetadata>): map<U64, Stream>
  {
    map id | id in records :: Decode(records[id], Lookup(curves, id), Lookup(metadata, id))
  }

  /**
   * Reading after saving gives the stream back, for every curve, cliff mode and
   * reference, whatever the side-cars held before; other ids are not disturbed.
   */
  lemma SaveThenRead(records: map<U64, StreamRecord>, curves: map<U64, ReleaseCurve>,
                     metadata: map<U64, StreamMetadata>, id: U64, s: Stream)
    ensures StoredStreams(records[id := FromStream(s)], Put(curves, id, CurveEntry(s)),
                          Put(metadata, id, MetadataEntry(s)))
            == StoredStreams(records, curves, metadata)[id := s]
  {
    var curves', metadata' := Put(curves, id, CurveEntry(s)), Put(metadata, id, MetadataEntry(s));
    assert Decode(FromStream(s), Lookup(curves', id), Lookup(metadata', id)) == s;
    forall k | k != id
      ensures Lookup(curves', k) == Lookup(curves, k) && Lookup(metadata', k) == Lookup(metadata, k)
    {
    }
  }

  /** A bare v1 record reads as linear, schedule-clocked and without a reference. */
  lemma BareRecordReadsAsV1(records: map<U64, StreamRecord>, id: U64)
    requires id in records
    ensures var s := StoredStreams(records, map[], map[])[id];
            && s.curve == Linear && s.cliffMode == Schedule && s.reference == None
            && FromStream(s) == records[id]
  {
  }

  /** The side-cars are canonical: equal streams are stored equally, and a default stream needs none. */
  lemma EncodingIsCanonical(s1: Stream, s2: Stream)
    ensures FromStream(s1) == FromStream(s2) && CurveEntry(s1) == CurveEntry(s2)
            && MetadataEntry(s1) == MetadataEntry(s2)
            <==> s1 == s2
  {
    assert Decode(FromStream(s1), CurveEntry(s1), MetadataEntry(s1)) == s1;
    assert Decode(FromStream(s2), CurveEntry(s2), MetadataEntry(s2)) == s2;
  }

  /** The frozen record holds each field under its own name, and the side-cars what the record does not. */
  lemma RecordIsFieldByField(s: Stream)
    ensures var r := FromStream(s);
            && r.sender == s.sender && r.recipient == s.recipient && r.token == s.token
            && r.deposited == s.deposited && r.withdrawn == s.withdrawn
            && r.startTime == s.startTime && r.endTime == s.endTime && r.cliffTime == s.cliffTime
            && r.cancellable == s.cancellable && r.pausable == s.pausable && r.transferable == s.transferable
            && r.pausedAt == s.pausedAt && r.pausedTotal == s.pausedTotal && r.status == s.status
    ensures CurveEntry(s) == None <==> s.curve == Linear
    ensures CurveEntry(s).Some? ==> CurveEntry(s).value == s.curve
    ensures MetadataEntry(s) == None <==> s.cliffMode == Schedule && s.reference == None
    ensures MetadataEntry(s).Some? ==>
              MetadataEntry(s).value.cliffMode == s.cliffMode && MetadataEntry(s).value.reference == s.reference
  {
  }
}
