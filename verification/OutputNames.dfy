/** Names of outputs and their order. */
module OutputNames {
  import opened Prelude

  datatype Ordering = Less | Equal | Greater
  {
    function Then(next: Ordering): Ordering {
      if Equal? then next else this
    }

    function Reverse(): Ordering {
      match this
      case Less => Greater
      case Equal => Equal
      case Greater => Less
    }
  }

  datatype OutputName = OutputName(connector: string, make: Option<string>, model: Option<string>, serial: Option<string>)
  {
    predicate MissingMms() {
      make.None? && model.None? && serial.None?
    }

    /** By make, model and serial, so that the order survives plugging into other connectors; unknown monitors last. */
    function Compare(other: OutputName): Ordering {
      if MissingMms() && other.MissingMms() then CompareStrings(connector, other.connector)
      else if MissingMms() then Greater
      else if other.MissingMms() then Less
      else
        CompareOptions(make, other.make)
          .Then(CompareOptions(model, other.model))
          .Then(CompareOptions(serial, other.serial))
          .Then(CompareStrings(connector, other.connector))
    }
  }

  function CompareStrings(a: string, b: string): Ordering {
    if a == [] then if b == [] then Equal else Less
    else if b == [] then Greater
    else if a[0] < b[0] then Less
    else if a[0] > b[0] then Greater
    else CompareStrings(a[1..], b[1..])
  }

  function CompareOptions(a: Option<string>, b: Option<string>): Ordering {
    if a.None? then if b.None? then Equal else Less
    else if b.None? then Greater
    else CompareStrings(a.value, b.value)
  }

  lemma {:induction false} StringsReverse(a: string, b: string)
    ensures CompareStrings(b, a) == CompareStrings(a, b).Reverse()
    ensures CompareStrings(a, b) == Equal <==> a == b
  {
    if a != [] && b != [] {
      StringsReverse(a[1..], b[1..]);
      assert a[0] == b[0] && a[1..] == b[1..] ==> a == [b[0]] + b[1..];
    }
  }

  lemma {:induction false} StringsTransitive(a: string, b: string, c: string)
    requires CompareStrings(a, b) == Less && CompareStrings(b, c) == Less
    ensures CompareStrings(a, c) == Less
  {
    if a != [] && a[0] == b[0] && b[0] == c[0] {
      StringsTransitive(a[1..], b[1..], c[1..]);
    }
  }

  lemma OptionsReverse(a: Option<string>, b: Option<string>)
    ensures CompareOptions(b, a) == CompareOptions(a, b).Reverse()
    ensures CompareOptions(a, b) == Equal <==> a == b
  {
    if a.Some? && b.Some? {
      StringsReverse(a.value, b.value);
    }
  }

  lemma OptionsTransitive(a: Option<string>, b: Option<string>, c: Option<string>)
    ensures CompareOptions(a, b) == Less && CompareOptions(b, c) == Less ==> CompareOptions(a, c) == Less
  {
    if a.Some? && b.Some? && c.Some? && CompareOptions(a, b) == Less && CompareOptions(b, c) == Less {
      StringsTransitive(a.value, b.value, c.value);
    }
  }

  /** Comparing the other way round gives the opposite answer, and only equal names compare equal. */
  lemma CompareReverse(a: OutputName, b: OutputName)
    ensures b.Compare(a) == a.Compare(b).Reverse()
    ensures a.Compare(b) == Equal <==> a == b
  {
    OptionsReverse(a.make, b.make);
    OptionsReverse(a.model, b.model);
    OptionsReverse(a.serial, b.serial);
    StringsReverse(a.connector, b.connector);
  }

  lemma ConnectorsTransitive(a: OutputName, b: OutputName, c: OutputName)
    ensures CompareStrings(a.connector, b.connector) == Less && CompareStrings(b.connector, c.connector) == Less ==>
      CompareStrings(a.connector, c.connector) == Less
  {
    if CompareStrings(a.connector, b.connector) == Less && CompareStrings(b.connector, c.connector) == Less {
      StringsTransitive(a.connector, b.connector, c.connector);
    }
  }

  /** With the reversal above, comparison is a strict total order on names. */
  lemma CompareTransitive(a: OutputName, b: OutputName, c: OutputName)
    requires a.Compare(b) == Less && b.Compare(c) == Less
    ensures a.Compare(c) == Less
  {
    OptionsTransitive(a.make, b.make, c.make);
    OptionsTransitive(a.model, b.model, c.model);
    OptionsTransitive(a.serial, b.serial, c.serial);
    ConnectorsTransitive(a, b, c);
    OptionsReverse(a.make, b.make);
    OptionsReverse(b.make, c.make);
    OptionsReverse(a.model, b.model);
    OptionsReverse(b.model, c.model);
    OptionsReverse(a.serial, b.serial);
    OptionsReverse(b.serial, c.serial);
  }

  // What the order is.

  /** The first of two different strings in dictionary order: a proper prefix, or less where they first differ. */
  ghost predicate ComesFirst(a: string, b: string) {
    || a < b
    || (exists k :: 0 <= k < |a| && k < |b| && a[..k] == b[..k] && a[k] < b[k])
  }

  lemma SameHead(a: string, b: string)
    requires a != [] && b != [] && a[0] == b[0]
    ensures ComesFirst(a, b) <==> ComesFirst(a[1..], b[1..])
  {
    var x, y := a[1..], b[1..];
    assert a == [a[0]] + x && b == [b[0]] + y;
    if k :| 0 <= k < |a| && k < |b| && a[..k] == b[..k] && a[k] < b[k] {
      assert x[..k - 1] == a[..k][1..] && y[..k - 1] == b[..k][1..];
      assert x[..k - 1] == y[..k - 1] && x[k - 1] < y[k - 1];
    }
    if k :| 0 <= k < |x| && k < |y| && x[..k] == y[..k] && x[k] < y[k] {
      assert a[..k + 1] == [a[0]] + x[..k] && b[..k + 1] == [b[0]] + y[..k];
      assert a[..k + 1] == b[..k + 1] && a[k + 1] < b[k + 1];
    }
  }

  lemma OtherHead(a: string, b: string)
    requires a != [] && b != [] && a[0] != b[0]
    ensures ComesFirst(a, b) <==> a[0] < b[0]
  {
    if a[0] < b[0] {
      assert a[..0] == b[..0];
    }
    forall k | 0 < k < |a| && k < |b| ensures a[..k] != b[..k] {
      assert a[..k][0] != b[..k][0];
    }
  }

  lemma {:induction false} StringsInDictionaryOrder(a: string, b: string)
    ensures CompareStrings(a, b) == Less <==> ComesFirst(a, b)
  {
    if a != [] && b != [] {
      if a[0] == b[0] {
        StringsInDictionaryOrder(a[1..], b[1..]);
        SameHead(a, b);
      } else {
        OtherHead(a, b);
      }
    }
  }

  /** Unknown before known, and known ones in dictionary order. */
  ghost predicate PartFirst(a: Option<string>, b: Option<string>) {
    b.Some? && (a.None? || ComesFirst(a.value, b.value))
  }

  /**
   * A name comes first when its monitor is known and the other's is not; between two known ones by make, then model,
   * then serial number; and in all other respects by connector.
   */
  lemma LessIff(a: OutputName, b: OutputName)
    ensures a.Compare(b) == Less <==>
      var aKnown := a.make.Some? || a.model.Some? || a.serial.Some?;
      var bKnown := b.make.Some? || b.model.Some? || b.serial.Some?;
      if aKnown != bKnown then aKnown
      else if a.make != b.make then PartFirst(a.make, b.make)
      else if a.model != b.model then PartFirst(a.model, b.model)
      else if a.serial != b.serial then PartFirst(a.serial, b.serial)
      else ComesFirst(a.connector, b.connector)
  {
    PartsLess(a.make, b.make);
    PartsLess(a.model, b.model);
    PartsLess(a.serial, b.serial);
    StringsInDictionaryOrder(a.connector, b.connector);
  }

  lemma PartsLess(a: Option<string>, b: Option<string>)
    ensures CompareOptions(a, b) == Less <==> PartFirst(a, b)
    ensures CompareOptions(a, b) == Equal <==> a == b
  {
    OptionsReverse(a, b);
    if a.Some? && b.Some? {
      StringsInDictionaryOrder(a.value, b.value);
    }
  }
}
