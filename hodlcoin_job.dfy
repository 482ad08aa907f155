/** The `Hodlcoin` job: the two birthday words it carries, their hydration
    from the block template's extension map, and its header size. */
module Jobs {
  import opened Types

  /** A value of the template's open-ended extension map, as the daemon's
      JSON delivers it. */
  datatype Value = JNull | JBool(b: bool) | JInteger(n: int) | JString(s: string)

  /** The part of the daemon's block template this model reads: the optional
      extension map `Extra` (null when the daemon sent none). */
  datatype BlockTemplate = BlockTemplate(extra: Option<map<string, Value>>)

  /** `Convert.ToUInt32` on an extension value, which is not part of this
      model: a 32-bit value, or the exception the conversion throws. */
  type Converter = Value -> Result<uint32>

  /** The two birthday words of a job. */
  datatype Birthdays = Birthdays(a: uint32, b: uint32)

  /** What `SetBirthdaysFromTemplate` leaves behind: the birthday words and
      whether the call completed or threw. */
  datatype Hydration = Hydration(birthdays: Birthdays, outcome: Outcome)

  const KeyA := "birthdayA"
  const KeyB := "birthdayB"

  /** One `if (Extra.TryGetValue(key, out var v)) Field = Convert.ToUInt32(v)`:
      the field's new value, or the conversion's exception. */
  function Assigned(current: uint32, extra: map<string, Value>, key: string, convert: Converter): Result<uint32>
  {
    if key in extra then convert(extra[key]) else Ok(current)
  }

  /** The effect of `SetBirthdaysFromTemplate(template)` on birthday words
      `prior`. */
  function Hydrate(prior: Birthdays, template: Option<BlockTemplate>, convert: Converter): (r: Hydration)
    // A null template is dereferenced before anything is assigned.
    ensures template.None? ==> r == Hydration(prior, Fail(NullReferenceException))
    // Without an extension map nothing changes.
    ensures template.Some? && template.value.extra.None? ==> r == Hydration(prior, Pass)
    ensures template.Some? && template.value.extra.Some? ==>
      var m := template.value.extra.value;
      // birthdayA: set from its key when present and convertible, otherwise kept; a failed
      // conversion aborts the call before birthdayB is looked at
      && (KeyA !in m ==> r.birthdays.a == prior.a)
      && (KeyA in m && convert(m[KeyA]).Ok? ==> r.birthdays.a == convert(m[KeyA]).value)
      && (KeyA in m && convert(m[KeyA]).Err? ==> r == Hydration(prior, Fail(convert(m[KeyA]).error)))
      // birthdayB: the same rule, reached only once birthdayA did not throw
      && (KeyB !in m ==> r.birthdays.b == prior.b)
      && (KeyB in m && convert(m[KeyB]).Ok? && r.outcome.Pass? ==> r.birthdays.b == convert(m[KeyB]).value)
      && (KeyB in m && convert(m[KeyB]).Err? ==> r.birthdays.b == prior.b && r.outcome.Fail?)
      // once birthdayA did not throw, a failing birthdayB conversion's own exception is thrown
      && (KeyB in m && convert(m[KeyB]).Err? && (KeyA in m ==> convert(m[KeyA]).Ok?) ==>
            r == Hydration(Birthdays(if KeyA in m then convert(m[KeyA]).value else prior.a, prior.b),
                           Fail(convert(m[KeyB]).error)))
      // the call completes exactly when no present key fails to convert
      && (r.outcome.Pass? <==> (KeyA in m ==> convert(m[KeyA]).Ok?) && (KeyB in m ==> convert(m[KeyB]).Ok?))
  {
    match template
    case None => Hydration(prior, Fail(NullReferenceException))
    case Some(t) =>
      match t.extra
      case None => Hydration(prior, Pass)
      case Some(m) =>
        match Assigned(prior.a, m, KeyA, convert)
        case Err(e) => Hydration(prior, Fail(e))
        case Ok(a) =>
          match Assigned(prior.b, m, KeyB, convert)
          case Err(e) => Hydration(prior.(a := a), Fail(e))
          case Ok(b) => Hydration(Birthdays(a, b), Pass)
  }

  /** Hydrating twice from the same template leaves the same words and the
      same outcome as hydrating once. */
  lemma HydrateIdempotent(prior: Birthdays, template: Option<BlockTemplate>, convert: Converter)
    ensures Hydrate(Hydrate(prior, template, convert).birthdays, template, convert) == Hydrate(prior, template, convert)
  {
  }

  /** True when `m1` and `m2` hold the same entry for `key`, or neither has it. */
  predicate SameEntry(m1: map<string, Value>, m2: map<string, Value>, key: string)
  {
    (key in m1 <==> key in m2) && (key in m1 ==> m1[key] == m2[key])
  }

  /** The `birthdayB` key has no effect on `BirthdayA`: two extension maps
      that agree on `birthdayA` give it the same value. */
  lemma BirthdayAIgnoresKeyB(prior: Birthdays, m1: map<string, Value>, m2: map<string, Value>,
                             t1: BlockTemplate, t2: BlockTemplate, convert: Converter)
    requires t1.extra == Some(m1) && t2.extra == Some(m2)
    requires SameEntry(m1, m2, KeyA)
    ensures Hydrate(prior, Some(t1), convert).birthdays.a == Hydrate(prior, Some(t2), convert).birthdays.a
  {
  }

  /** The `birthdayA` key has no effect on `BirthdayB` unless its conversion
      throws: two extension maps that agree on `birthdayB`, and whose
      `birthdayA` entries do not throw, give it the same value. */
  lemma BirthdayBIgnoresKeyA(prior: Birthdays, m1: map<string, Value>, m2: map<string, Value>,
                             t1: BlockTemplate, t2: BlockTemplate, convert: Converter)
    requires t1.extra == Some(m1) && t2.extra == Some(m2)
    requires SameEntry(m1, m2, KeyB)
    requires KeyA in m1 ==> convert(m1[KeyA]).Ok?
    requires KeyA in m2 ==> convert(m2[KeyA]).Ok?
    ensures Hydrate(prior, Some(t1), convert).birthdays.b == Hydrate(prior, Some(t2), convert).birthdays.b
  {
  }

  /** A Hodlcoin job: a Bitcoin job built from one block template, carrying
      the two birthday words that extend its header. */
  class HodlcoinJob {
    const Template: Option<BlockTemplate>
    var BirthdayA: uint32
    var BirthdayB: uint32

    /** A new job; both birthday words start at `uint`'s default, zero. */
    constructor (template: Option<BlockTemplate>)
      ensures Template == template
      ensures BirthdayA == 0 && BirthdayB == 0
    {
      Template := template;
      BirthdayA := 0;
      BirthdayB := 0;
    }

    /** The job's current birthday words. */
    function State(): Birthdays
      reads this
    {
      Birthdays(BirthdayA, BirthdayB)
    }

    /** Length of a Hodlcoin block header: the Bitcoin header followed by the
      two 32-bit birthday words. It equals the length the `Bitcoin.Custom.Hodlcoin`
      job's serializer demands of its buffer, a different class. */
    function HeaderSize(): (n: nat)
      ensures n == BitcoinHeaderSize + 2 * 4
      ensures n == HodlcoinHeaderSize
    {
      88
    }

    /** Overwrites each birthday word whose key the template's extension map
      holds, with the converted value; a conversion that throws ends the call. */
    method SetBirthdaysFromTemplate(blockTemplate: Option<BlockTemplate>, convert: Converter) returns (r: Outcome)
      modifies this`BirthdayA, this`BirthdayB
      ensures Hydration(State(), r) == Hydrate(old(State()), blockTemplate, convert)
    {
      if blockTemplate.None? {
        return Fail(NullReferenceException);
      }
      var extra := blockTemplate.value.extra;
      if extra.Some? {
        var m := extra.value;
        if KeyA in m {
          var a := convert(m[KeyA]);
          if a.Err? {
            return Fail(a.error);
          }
          BirthdayA := a.value;
        }
        if KeyB in m {
          var b := convert(m[KeyB]);
          if b.Err? {
            return Fail(b.error);
          }
          BirthdayB := b.value;
        }
      }
      r := Pass;
    }
  }
}
