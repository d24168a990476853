/**
 * The configuration table of the JetStream republish example
 * (examples/jetstream/republish/go/main.go): properties arrive as messages
 * republished from a key-value stream, each with its stream sequence, and
 * a property is only overwritten by a message with a higher sequence. The
 * read-write mutex is left out: the operations are sequential here.
 */
module Republish {
  import opened Strs

  datatype SeqValue = SeqValue(sequence: nat, value: string)

  /** One call of Set. */
  datatype Update = Update(key: string, sequence: nat, value: string)

  /** The table after Set: an absent key is inserted, a present one replaced only by a higher sequence. */
  function Updated(props: map<string, SeqValue>, u: Update): (r: map<string, SeqValue>)
    ensures r.Keys == props.Keys + {u.key}
    ensures forall k | k in props && k != u.key :: r[k] == props[k]
    ensures u.key !in props ==> r[u.key] == SeqValue(u.sequence, u.value)
    ensures u.key in props && u.sequence > props[u.key].sequence ==> r[u.key] == SeqValue(u.sequence, u.value)
    ensures u.key in props && u.sequence <= props[u.key].sequence ==> r[u.key] == props[u.key]
    ensures u.key in props ==> r[u.key].sequence >= props[u.key].sequence
  {
    if u.key !in props then props[u.key := SeqValue(u.sequence, u.value)]
    else if u.sequence > props[u.key].sequence then props[u.key := SeqValue(u.sequence, u.value)]
    else props
  }

  class Config {
    var props: map<string, SeqValue>

    /** NewConfig: an empty table. */
    constructor ()
      ensures props == map[]
    {
      props := map[];
    }

    /** Get: "" for an absent key, the stored value otherwise. */
    function Get(key: string): (v: string)
      reads this
      ensures key !in props ==> v == ""
      ensures key in props ==> v == props[key].value
    {
      if key in props then props[key].value else ""
    }

    /** Set: insert an absent key; update a present one only if `seq` is more recent. */
    method Set(key: string, sequence: nat, val: string)
      modifies this
      ensures props == Updated(old(props), Update(key, sequence, val))
    {
      if key !in props {
        props := props[key := SeqValue(sequence, val)];
        return;
      }
      var sv := props[key];
      if sequence > sv.sequence {
        props := props[key := SeqValue(sequence, val)];
      }
    }
  }

  /** The table after a series of Set calls, starting from `props`. */
  function Applied(props: map<string, SeqValue>, us: seq<Update>): map<string, SeqValue> {
    if |us| == 0 then props else Updated(Applied(props, us[..|us| - 1]), us[|us| - 1])
  }

  /** The index of the update a key ends up holding: the first with the highest sequence; -1 when none names it. */
  function WinnerIndex(us: seq<Update>, key: string): (w: int)
    ensures -1 <= w < |us|
  {
    if |us| == 0 then -1
    else
      var w := WinnerIndex(us[..|us| - 1], key);
      var u := us[|us| - 1];
      if u.key == key && (w == -1 || u.sequence > us[w].sequence) then |us| - 1 else w
  }

  /** WinnerIndex names an update of the key with the highest sequence, and no earlier one has it. */
  lemma {:induction false} WinnerIndexSpec(us: seq<Update>, key: string)
    ensures var w := WinnerIndex(us, key);
      (w == -1 <==> forall i | 0 <= i < |us| :: us[i].key != key)
      && (w >= 0 ==>
            us[w].key == key
            && (forall j | 0 <= j < |us| && us[j].key == key :: us[j].sequence <= us[w].sequence)
            && (forall j | 0 <= j < w && us[j].key == key :: us[j].sequence < us[w].sequence))
  {
    if |us| > 0 {
      var init := us[..|us| - 1];
      WinnerIndexSpec(init, key);
      forall j | 0 <= j < |init| ensures us[j] == init[j] {}
    }
  }

  /** The table built by Set calls from empty holds, for each key, the update WinnerIndex names. */
  lemma {:induction false} AppliedIsWinner(us: seq<Update>, key: string)
    ensures var w := WinnerIndex(us, key);
      (key in Applied(map[], us) <==> w >= 0)
      && (w >= 0 ==> Applied(map[], us)[key] == SeqValue(us[w].sequence, us[w].value))
  {
    if |us| > 0 {
      var init := us[..|us| - 1];
      AppliedIsWinner(init, key);
      var w := WinnerIndex(init, key);
      if w >= 0 {
        assert us[w] == init[w];
      }
    }
  }

  /**
   * Starting from an empty table, a key is present exactly when some Set
   * named it, and it then holds the first of the updates with the highest
   * sequence: every update of the key has a sequence no higher, and the
   * updates before it a strictly lower one.
   */
  lemma AppliedWinner(us: seq<Update>, key: string)
    ensures key in Applied(map[], us) <==> exists i | 0 <= i < |us| :: us[i].key == key
    ensures key in Applied(map[], us) ==> exists i | 0 <= i < |us| && us[i].key == key ::
      Applied(map[], us)[key] == SeqValue(us[i].sequence, us[i].value)
      && (forall j | 0 <= j < |us| && us[j].key == key :: us[j].sequence <= us[i].sequence)
      && (forall j | 0 <= j < i && us[j].key == key :: us[j].sequence < us[i].sequence)
  {
    WinnerIndexSpec(us, key);
    AppliedIsWinner(us, key);
  }

  /** The stored sequence of a key never decreases across Set calls. */
  lemma {:induction false} AppliedMonotone(props: map<string, SeqValue>, us: seq<Update>, key: string)
    requires key in props
    ensures key in Applied(props, us) && Applied(props, us)[key].sequence >= props[key].sequence
  {
    if |us| > 0 {
      AppliedMonotone(props, us[..|us| - 1], key);
    }
  }

  /** The parts of a republished message the example reads. */
  datatype Msg = Msg(subject: string, header: map<string, string>, data: string)

  /** nats.Header.Get on a canonical key: the first value, "" when absent. */
  function HeaderGet(h: map<string, string>, key: string): string {
    if key in h then h[key] else ""
  }

  /**
   * parseConfigEntry: the property is the subject after its last '.' (all
   * of it when there is none), the value is the payload, and the sequence
   * the Nats-Sequence header parsed in base 10, errors ignored.
   */
  function ParseConfigEntry(msg: Msg): (r: Update)
    ensures '.' !in r.key
    ensures |r.key| <= |msg.subject| && msg.subject[|msg.subject| - |r.key|..] == r.key
    ensures |r.key| < |msg.subject| ==> msg.subject[|msg.subject| - |r.key| - 1] == '.'
    ensures r.value == msg.data
    ensures r.sequence <= MaxUint64
    ensures "Nats-Sequence" !in msg.header ==> r.sequence == 0
  {
    var idx := LastIndexChar(msg.subject, '.');
    ParseUintBound(HeaderGet(msg.header, "Nats-Sequence"));
    Update(msg.subject[idx + 1..], ParseUint10(HeaderGet(msg.header, "Nats-Sequence")), msg.data)
  }

  /** A sequence header of up to 19 characters with anything but a digit in it yields 0. */
  lemma ConfigEntryUnparsable(msg: Msg, i: nat)
    requires "Nats-Sequence" in msg.header
    requires |msg.header["Nats-Sequence"]| <= 19
    requires i < |msg.header["Nats-Sequence"]| && !IsDigit(msg.header["Nats-Sequence"][i])
    ensures ParseConfigEntry(msg).sequence == 0
  {
    ParseUintShortNonDigit(msg.header["Nats-Sequence"], i);
  }

  /** A decimal sequence header that fits in 64 bits yields its value. */
  lemma ConfigEntryDecimal(msg: Msg)
    requires "Nats-Sequence" in msg.header
    requires forall i | 0 <= i < |msg.header["Nats-Sequence"]| :: IsDigit(msg.header["Nats-Sequence"][i])
    requires DigitsValue(msg.header["Nats-Sequence"]) <= MaxUint64
    ensures ParseConfigEntry(msg).sequence == DigitsValue(msg.header["Nats-Sequence"])
  {
    ParseUintDigits(msg.header["Nats-Sequence"]);
  }
}
