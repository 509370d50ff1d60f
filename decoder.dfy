/**
 * The state a decoding strategy works on: one FIFO of samples per receiver,
 * the per-receiver histories the decoder accumulates from them, and the
 * landmark and symbol results a strategy fills in.
 */
module Decoding {
  import opened Optional
  import opened Text

  /** One reading of a receiver: a time and one value per sensor. */
  datatype Sample = Sample(timestamp: real, values: seq<real>)

  /**
   * A receiver as the decoder sees it: a FIFO that its listening thread fills
   * and the decoder drains from the front.
   */
  class Receiver {
    const description: string
    const sensorDescriptions: seq<string>
    var queue: seq<Sample>

    constructor (description: string, sensorDescriptions: seq<string>)
      ensures this.description == description && this.sensorDescriptions == sensorDescriptions
      ensures queue == []
    {
      this.description := description;
      this.sensorDescriptions := sensorDescriptions;
      queue := [];
    }

    /** Every queued sample has one value per sensor. */
    ghost predicate Valid()
      reads this
    {
      forall k :: 0 <= k < |queue| ==> |queue[k].values| == |sensorDescriptions|
    }

    /** What the listening thread does with each reading. */
    method Put(s: Sample)
      requires Valid() && |s.values| == |sensorDescriptions|
      modifies this`queue
      ensures Valid()
      ensures queue == old(queue) + [s]
    {
      queue := queue + [s];
    }

    /** `get_available`: how many samples are waiting. */
    function Available(): (n: nat)
      reads this
      ensures n == |queue|
    {
      |queue|
    }

    /** `get(0)`: remove and return the oldest sample. */
    method GetFirst() returns (s: Sample)
      requires queue != []
      modifies this`queue
      ensures s == old(queue[0]) && queue == old(queue[1..])
    {
      s := queue[0];
      queue := queue[1..];
    }
  }

  /** The entries of a history; a history nothing was appended to yet (None) has none. */
  function Entries<T>(h: Option<seq<T>>): seq<T> {
    match h
    case None => []
    case Some(xs) => xs
  }

  /** `np.array([x])` for an empty history, `np.append(h, x)` otherwise. */
  function Appended<T>(h: Option<seq<T>>, x: T): (r: Option<seq<T>>)
    ensures r.Some? && Entries(r) == Entries(h) + [x]
  {
    match h
    case None => Some([x])
    case Some(xs) => Some(xs + [x])
  }

  /** Every row of a value history has width `w`, as `np.vstack` demands. */
  ghost predicate RowsOfWidth(h: Option<seq<seq<real>>>, w: nat) {
    forall k :: 0 <= k < |Entries(h)| ==> |Entries(h)[k]| == w
  }

  /** The timestamps of queued samples, oldest first. */
  function TimestampsOf(q: seq<Sample>): (r: seq<real>)
    ensures |r| == |q| && forall k :: 0 <= k < |q| ==> r[k] == q[k].timestamp
  {
    seq(|q|, k requires 0 <= k < |q| => q[k].timestamp)
  }

  /** The value rows of queued samples, oldest first. */
  function ValuesOf(q: seq<Sample>): (r: seq<seq<real>>)
    ensures |r| == |q| && forall k :: 0 <= k < |q| ==> r[k] == q[k].values
  {
    seq(|q|, k requires 0 <= k < |q| => q[k].values)
  }

  /** `get_landmark_info`. */
  datatype LandmarkInfo = LandmarkInfo(num: nat, names: Option<seq<string>>, symbols: Option<seq<string>>)

  /** One entry of `get_receiver_info`. */
  datatype ReceiverInfo = ReceiverInfo(description: string, sensorDescriptions: seq<string>)

  /** `get_decoded`: the histories and whatever the strategy computed. */
  datatype Decoded = Decoded(
    timestamps: seq<Option<seq<real>>>,
    values: seq<Option<seq<seq<real>>>>,
    landmarks: seq<Option<seq<real>>>,
    symbolIntervals: seq<real>,
    symbolValues: seq<int>,
    sequence: string)

  /** The default circle symbol for each of `n` landmarks. */
  function Circles(n: nat): (r: seq<string>)
    ensures |r| == n && forall k :: 0 <= k < n ==> r[k] == "o"
  {
    seq(n, _ => "o")
  }

  /** Descriptions generated from the receiver types: the type followed by the 1-based index. */
  function GeneratedDescriptions(types: seq<string>): (r: seq<string>)
    ensures |r| == |types|
    ensures forall i :: 0 <= i < |types| ==> r[i] == types[i] + NatToString(i + 1)
  {
    seq(|types|, i requires 0 <= i < |types| => types[i] + NatToString(i + 1))
  }

  /**
   * The receiver loop of `setup`: one new receiver per sensor-description
   * list, each with an empty buffer and no history yet.
   */
  method CreateReceivers(descriptions: seq<string>, sensorDescriptions: seq<seq<string>>)
    returns (rs: seq<Receiver>, buffers: seq<seq<Sample>>, ts: seq<Option<seq<real>>>, rows: seq<Option<seq<seq<real>>>>)
    requires |descriptions| >= |sensorDescriptions|
    ensures |rs| == |sensorDescriptions| && |buffers| == |rs| && |ts| == |rs| && |rows| == |rs|
    ensures forall k :: 0 <= k < |rs| ==>
      && fresh(rs[k]) && rs[k].queue == []
      && rs[k].description == descriptions[k]
      && rs[k].sensorDescriptions == sensorDescriptions[k]
    ensures forall k, l :: 0 <= k < l < |rs| ==> rs[k] != rs[l]
    ensures forall k :: 0 <= k < |rs| ==> buffers[k] == [] && ts[k].None? && rows[k].None?
  {
    rs, buffers, ts, rows := [], [], [], [];
    for i := 0 to |sensorDescriptions|
      invariant |rs| == i && |buffers| == i && |ts| == i && |rows| == i
      invariant forall k :: 0 <= k < i ==>
        && fresh(rs[k]) && rs[k].queue == []
        && rs[k].description == descriptions[k]
        && rs[k].sensorDescriptions == sensorDescriptions[k]
      invariant forall k, l :: 0 <= k < l < i ==> rs[k] != rs[l]
      invariant forall k :: 0 <= k < i ==> buffers[k] == [] && ts[k].None? && rows[k].None?
    {
      var receiver := new Receiver(descriptions[i], sensorDescriptions[i]);
      rs := rs + [receiver];
      buffers := buffers + [[]];
      ts := ts + [None];
      rows := rows + [None];
    }
  }

  /** The landmark loop of `setup`: `n` landmarks, none computed yet. */
  method NoneEach(n: nat) returns (marks: seq<Option<seq<real>>>)
    ensures |marks| == n && forall l :: 0 <= l < n ==> marks[l].None?
  {
    marks := [];
    for k := 0 to n
      invariant |marks| == k && forall l :: 0 <= l < k ==> marks[l].None?
    {
      marks := marks + [None];
    }
  }

  class DecoderInterface {
    var receiverTypes: seq<string>
    var receiverDescriptions: Option<seq<string>>
    var landmarkNames: Option<seq<string>>
    var landmarkSymbols: Option<seq<string>>

    var numReceivers: nat
    var numLandmarks: nat
    var active: bool
    var receivers: seq<Receiver>
    var receiverBuffer: seq<seq<Sample>>
    var timestamps: seq<Option<seq<real>>>
    var received: seq<Option<seq<seq<real>>>>
    var landmarks: seq<Option<seq<real>>>
    var symbolIntervals: seq<real>
    var symbolValues: seq<int>
    var sequence: string

    /**
     * The attributes a concrete decoder sets in its own constructor. The
     * pipeline state is empty until `Setup`.
     */
    constructor (receiverTypes: seq<string>, receiverDescriptions: Option<seq<string>>,
                 landmarkNames: Option<seq<string>>, landmarkSymbols: Option<seq<string>>)
      ensures this.receiverTypes == receiverTypes && this.receiverDescriptions == receiverDescriptions
      ensures this.landmarkNames == landmarkNames && this.landmarkSymbols == landmarkSymbols
      ensures receivers == [] && !active
    {
      this.receiverTypes := receiverTypes;
      this.receiverDescriptions := receiverDescriptions;
      this.landmarkNames := landmarkNames;
      this.landmarkSymbols := landmarkSymbols;
      numReceivers, numLandmarks, active := 0, 0, false;
      receivers, receiverBuffer, timestamps, received, landmarks := [], [], [], [], [];
      symbolIntervals, symbolValues, sequence := [], [], "";
    }

    /** The shape `Setup` establishes and the pipeline keeps. */
    ghost predicate Valid()
      reads this, receivers
    {
      && |receivers| == numReceivers && |receiverBuffer| == numReceivers
      && |timestamps| == numReceivers && |received| == numReceivers
      && (forall i, j :: 0 <= i < j < |receivers| ==> receivers[i] != receivers[j])
      && (forall i :: 0 <= i < |receivers| ==> receivers[i].Valid())
      && (forall i :: 0 <= i < |receivers| ==> RowsOfWidth(received[i], |receivers[i].sensorDescriptions|))
      && landmarkNames.Some? && numLandmarks == |landmarkNames.value| && |landmarks| == numLandmarks
    }

    /**
     * `setup`. Receiver `i` is created with description `i` and, as its own
     * code decides, the sensor descriptions `sensorDescriptions[i]`. The
     * result says whether the landmark-symbol length warning was logged.
     */
    method Setup(sensorDescriptions: seq<seq<string>>) returns (symbolsWarning: bool)
      requires |sensorDescriptions| == |receiverTypes|
      requires receiverDescriptions.Some? ==> |receiverDescriptions.value| >= |receiverTypes|
      modifies this
      ensures Valid()
      ensures receiverTypes == old(receiverTypes) && numReceivers == |receiverTypes|
      ensures receiverDescriptions ==
        if old(receiverDescriptions).None? then Some(GeneratedDescriptions(receiverTypes)) else old(receiverDescriptions)
      ensures old(landmarkNames).None? ==>
        landmarkNames == Some([]) && numLandmarks == 0 && landmarkSymbols == old(landmarkSymbols) && !symbolsWarning
      ensures old(landmarkNames).Some? ==>
        && landmarkNames == old(landmarkNames) && numLandmarks == |old(landmarkNames).value|
        && symbolsWarning == (old(landmarkSymbols).Some? && |old(landmarkSymbols).value| != numLandmarks)
        && landmarkSymbols ==
             if old(landmarkSymbols).Some? && |old(landmarkSymbols).value| == numLandmarks then old(landmarkSymbols)
             else Some(Circles(numLandmarks))
      ensures forall i :: 0 <= i < numReceivers ==>
        && fresh(receivers[i]) && receivers[i].queue == []
        && receivers[i].description == receiverDescriptions.value[i]
        && receivers[i].sensorDescriptions == sensorDescriptions[i]
      ensures forall i :: 0 <= i < numReceivers ==> receiverBuffer[i] == [] && timestamps[i].None? && received[i].None?
      ensures forall k :: 0 <= k < numLandmarks ==> landmarks[k].None?
      ensures symbolIntervals == [] && symbolValues == [] && sequence == "" && !active
    {
      numReceivers := |receiverTypes|;
      if receiverDescriptions.None? {
        receiverDescriptions := Some(GeneratedDescriptions(receiverTypes));
      }
      symbolsWarning := NormaliseLandmarks();
      ResetPipeline(sensorDescriptions);
    }

    /**
     * The rest of `setup`: fresh receivers with empty buffers and no history,
     * no landmark computed yet, no symbols, not listening.
     */
    method ResetPipeline(sensorDescriptions: seq<seq<string>>)
      requires receiverDescriptions.Some? && |receiverDescriptions.value| >= |sensorDescriptions|
      modifies this`active, this`receivers, this`receiverBuffer, this`timestamps, this`received
      modifies this`landmarks, this`symbolIntervals, this`symbolValues, this`sequence
      ensures |receivers| == |sensorDescriptions| && |receiverBuffer| == |receivers|
      ensures |timestamps| == |receivers| && |received| == |receivers|
      ensures forall i :: 0 <= i < |receivers| ==>
        && fresh(receivers[i]) && receivers[i].queue == []
        && receivers[i].description == receiverDescriptions.value[i]
        && receivers[i].sensorDescriptions == sensorDescriptions[i]
      ensures forall i, j :: 0 <= i < j < |receivers| ==> receivers[i] != receivers[j]
      ensures forall i :: 0 <= i < |receivers| ==> receiverBuffer[i] == [] && timestamps[i].None? && received[i].None?
      ensures |landmarks| == numLandmarks && forall k :: 0 <= k < numLandmarks ==> landmarks[k].None?
      ensures symbolIntervals == [] && symbolValues == [] && sequence == "" && !active
    {
      var rs, buffers, ts, rows := CreateReceivers(receiverDescriptions.value, sensorDescriptions);
      active := false;
      landmarks := NoneEach(numLandmarks);
      symbolIntervals, symbolValues, sequence := [], [], "";
      receivers, receiverBuffer, timestamps, received := rs, buffers, ts, rows;
    }

    /**
     * The landmark part of `setup`: missing names mean no landmarks; given
     * names get one symbol each, circles unless the given symbols fit. The
     * result says whether the length-mismatch warning was logged.
     */
    method NormaliseLandmarks() returns (symbolsWarning: bool)
      modifies this`landmarkNames, this`numLandmarks, this`landmarkSymbols
      ensures old(landmarkNames).None? ==>
        landmarkNames == Some([]) && numLandmarks == 0 && landmarkSymbols == old(landmarkSymbols) && !symbolsWarning
      ensures old(landmarkNames).Some? ==>
        && landmarkNames == old(landmarkNames) && numLandmarks == |old(landmarkNames).value|
        && symbolsWarning == (old(landmarkSymbols).Some? && |old(landmarkSymbols).value| != numLandmarks)
        && landmarkSymbols ==
             if old(landmarkSymbols).Some? && |old(landmarkSymbols).value| == numLandmarks then old(landmarkSymbols)
             else Some(Circles(numLandmarks))
    {
      symbolsWarning := false;
      if landmarkNames.None? {
        landmarkNames := Some([]);
        numLandmarks := 0;
      } else {
        numLandmarks := |landmarkNames.value|;
        if landmarkSymbols.None? {
          landmarkSymbols := Some(Circles(numLandmarks));
        } else if |landmarkSymbols.value| != numLandmarks {
          symbolsWarning := true;
          landmarkSymbols := Some(Circles(numLandmarks));
        }
      }
    }

    /** `start`: the listening threads are not modelled; only the flag changes. */
    method Start()
      modifies this`active
      ensures active
    {
      active := true;
    }

    /** `stop`. */
    method Stop()
      modifies this`active
      ensures !active
    {
      active := false;
    }

    /** `get_receiver_info`: each receiver's description and sensor descriptions, in receiver order. */
    method GetReceiverInfo() returns (info: seq<ReceiverInfo>)
      ensures |info| == |receivers|
      ensures forall i :: 0 <= i < |receivers| ==>
        info[i].description == receivers[i].description && info[i].sensorDescriptions == receivers[i].sensorDescriptions
    {
      info := [];
      for k := 0 to |receivers|
        invariant |info| == k
        invariant forall i :: 0 <= i < k ==>
          info[i].description == receivers[i].description && info[i].sensorDescriptions == receivers[i].sensorDescriptions
      {
        var receiver := receivers[k];
        info := info + [ReceiverInfo(receiver.description, receiver.sensorDescriptions)];
      }
    }

    function GetLandmarkInfo(): (r: LandmarkInfo)
      reads this
      ensures Valid() ==> r.names.Some? && r.num == |r.names.value|
    {
      LandmarkInfo(numLandmarks, landmarkNames, landmarkSymbols)
    }

    /** `get_decoded`: the histories and the strategy results, one history per receiver after `Setup`. */
    function GetDecoded(): (r: Decoded)
      reads this, receivers
      ensures |r.timestamps| == |timestamps| && |r.values| == |received|
      ensures Valid() ==> |r.timestamps| == |r.values| == numReceivers && |r.landmarks| == numLandmarks
      ensures Valid() ==> forall i :: 0 <= i < numReceivers ==>
        forall k :: 0 <= k < |Entries(r.values[i])| ==> |Entries(r.values[i])[k]| == |receivers[i].sensorDescriptions|
    {
      Decoded(timestamps, received, landmarks, symbolIntervals, symbolValues, sequence)
    }

    /** `append_timestamp`: only history `index` grows, by `timestamp` at its end. */
    method AppendTimestamp(index: nat, timestamp: real)
      requires index < |timestamps|
      modifies this`timestamps
      ensures timestamps == old(timestamps)[index := Appended(old(timestamps[index]), timestamp)]
    {
      timestamps := timestamps[index := Appended(timestamps[index], timestamp)];
    }

    /** `append_values`: only history `index` grows, by one row of the existing width. */
    method AppendValues(index: nat, values: seq<real>)
      requires index < |received| && RowsOfWidth(received[index], |values|)
      modifies this`received
      ensures received == old(received)[index := Appended(old(received[index]), values)]
      ensures RowsOfWidth(received[index], |values|)
    {
      received := received[index := Appended(received[index], values)];
    }
  
    /**
     * What draining every receiver does: each queue is emptied and what was
     * queued is appended, in arrival order, to that receiver's histories; a
     * receiver with nothing queued keeps its histories exactly.
     */
    twostate predicate Drained()
      reads this, receivers
    {
      && receivers == old(receivers)
      && |timestamps| == |receivers| && |received| == |receivers|
      && |old(timestamps)| == |receivers| && |old(received)| == |receivers|
      && (forall i :: 0 <= i < |receivers| ==>
        && receivers[i].queue == []
        && Entries(timestamps[i]) == Entries(old(timestamps[i])) + TimestampsOf(old(receivers[i].queue))
        && Entries(received[i]) == Entries(old(received[i])) + ValuesOf(old(receivers[i].queue)))
      && (forall i :: 0 <= i < |receivers| && old(receivers[i].queue) == [] ==>
        timestamps[i] == old(timestamps[i]) && received[i] == old(received[i]))
    }

    /** `empty_receiver_buffers`. */
    method EmptyReceiverBuffers()
      requires Valid()
      modifies this`timestamps, this`received, receivers
      ensures Valid() && Drained()
      ensures forall i :: 0 <= i < |receivers| && |Entries(old(timestamps[i]))| == |Entries(old(received[i]))| ==>
        |Entries(timestamps[i])| == |Entries(received[i])|
    {
      DrainAll();
    }

    /** The loop of `empty_receiver_buffers`: every receiver drained in turn, each one's histories extended. */
    method DrainAll()
      requires |timestamps| == |receivers| && |received| == |receivers|
      requires forall a, b :: 0 <= a < b < |receivers| ==> receivers[a] != receivers[b]
      requires forall k :: 0 <= k < |receivers| ==>
        receivers[k].Valid() && RowsOfWidth(received[k], |receivers[k].sensorDescriptions|)
      modifies this`timestamps, this`received, receivers
      ensures |timestamps| == |receivers| && |received| == |receivers|
      ensures forall k :: 0 <= k < |receivers| ==>
        && receivers[k].queue == []
        && Entries(timestamps[k]) == Entries(old(timestamps[k])) + TimestampsOf(old(receivers[k].queue))
        && Entries(received[k]) == Entries(old(received[k])) + ValuesOf(old(receivers[k].queue))
      ensures forall k :: 0 <= k < |receivers| && old(receivers[k].queue) == [] ==>
        timestamps[k] == old(timestamps[k]) && received[k] == old(received[k])
      ensures forall k :: 0 <= k < |receivers| ==>
        receivers[k].Valid() && RowsOfWidth(received[k], |receivers[k].sensorDescriptions|)
    {
      for i := 0 to |receivers|
        invariant |timestamps| == |receivers| && |received| == |receivers|
        invariant forall k :: 0 <= k < i ==>
          && receivers[k].queue == []
          && Entries(timestamps[k]) == Entries(old(timestamps[k])) + TimestampsOf(old(receivers[k].queue))
          && Entries(received[k]) == Entries(old(received[k])) + ValuesOf(old(receivers[k].queue))
        invariant forall k :: 0 <= k < i && old(receivers[k].queue) == [] ==> timestamps[k] == old(timestamps[k]) && received[k] == old(received[k])
        invariant forall k :: i <= k < |receivers| ==>
          receivers[k].queue == old(receivers[k].queue) && timestamps[k] == old(timestamps[k]) && received[k] == old(received[k])
        invariant forall k :: 0 <= k < |receivers| ==> RowsOfWidth(received[k], |receivers[k].sensorDescriptions|)
      {
        DrainOne(i);
      }
    }

    /** The inner loop of `empty_receiver_buffers`, for receiver `i`. */
    method DrainOne(i: nat)
      requires i < |receivers| == |timestamps| == |received|
      requires receivers[i].Valid() && RowsOfWidth(received[i], |receivers[i].sensorDescriptions|)
      modifies this`timestamps, this`received, receivers[i]
      ensures |timestamps| == |receivers| && |received| == |receivers|
      ensures receivers[i].queue == [] && receivers[i].Valid()
      ensures RowsOfWidth(received[i], |receivers[i].sensorDescriptions|)
      ensures Entries(timestamps[i]) == Entries(old(timestamps[i])) + TimestampsOf(old(receivers[i].queue))
      ensures Entries(received[i]) == Entries(old(received[i])) + ValuesOf(old(receivers[i].queue))
      ensures old(receivers[i].queue) == [] ==> timestamps[i] == old(timestamps[i]) && received[i] == old(received[i])
      ensures forall k :: 0 <= k < |timestamps| && k != i ==> timestamps[k] == old(timestamps[k]) && received[k] == old(received[k])
    {
      var receiver := receivers[i];
      var w := |receiver.sensorDescriptions|;
      ghost var q := receiver.queue;
      var n := receiver.Available();
      for j := 0 to n
        invariant receiver.queue == q[j..]
        invariant |timestamps| == |receivers| && |received| == |receivers|
        invariant Entries(timestamps[i]) == Entries(old(timestamps[i])) + TimestampsOf(q[..j])
        invariant Entries(received[i]) == Entries(old(received[i])) + ValuesOf(q[..j])
        invariant j == 0 ==> timestamps[i] == old(timestamps[i]) && received[i] == old(received[i])
        invariant RowsOfWidth(received[i], w)
        invariant forall k :: 0 <= k < |timestamps| && k != i ==> timestamps[k] == old(timestamps[k]) && received[k] == old(received[k])
      {
        var x := receiver.GetFirst();
        assert x == q[j];
        AppendTimestamp(i, x.timestamp);
        AppendValues(i, x.values);
        assert q[..j + 1] == q[..j] + [x];
        assert TimestampsOf(q[..j + 1]) == TimestampsOf(q[..j]) + [x.timestamp];
        assert ValuesOf(q[..j + 1]) == ValuesOf(q[..j]) + [x.values];
      }
      assert q[..n] == q;
    }

    /** The strategy steps of the base class: none of them changes any state. */
    method CalculateLandmarks() {}
    method CalculateSymbolIntervals() {}
    method CalculateSymbolValues() {}
    method CalculateSequence() {}

    /**
     * `decode`: drain, then the landmark, interval, value and sequence steps
     * in that order. A `symbolValues` list that is neither empty nor one
     * shorter than `symbolIntervals` is reported and left as it is.
     */
    method Decode() returns (valuesWarning: bool)
      requires Valid()
      modifies this`timestamps, this`received, receivers
      ensures Valid() && Drained()
      ensures valuesWarning == (symbolValues != [] && |symbolValues| != |symbolIntervals| - 1)
    {
      EmptyReceiverBuffers();
      CalculateLandmarks();
      CalculateSymbolIntervals();
      CalculateSymbolValues();
      valuesWarning := symbolValues != [] && |symbolValues| != |symbolIntervals| - 1;
      CalculateSequence();
    }
  }
}
