/**
 * Model of the `Galaxy` record of gmag/galaxy.py: five band images, a
 * preview image, a name, a redshift and a sky position, with property
 * setters that overwrite single fields.
 */
module GalaxyRecord {
  import opened Wrappers
  import opened Format

  /**
   * A NumPy array, kept as an opaque value that only tells arrays apart.
   * The model never looks inside one; it only stores and returns them.
   */
  datatype NdArray = NdArray(id: nat)

  /** `np.empty(0)`: a one-dimensional array of length zero. */
  const EmptyArray: NdArray := NdArray(0)

  /** The width and precision of the name field in the info text. */
  const InfoNameWidth: nat := 40
  const InfoNamePrecision: nat := 35

  /** The `data` property: the band images in order u, g, r, i, z. */
  type Bands = (NdArray, NdArray, NdArray, NdArray, NdArray)

  /** The `ValueError` of a five-way tuple unpacking that gets a wrong count. */
  datatype UnpackError = TooManyValues | NotEnoughValues(got: nat)

  datatype Outcome = Pass | Fail(error: UnpackError)

  /** A snapshot of every field of a galaxy. */
  datatype GalaxyState = GalaxyState(
    u: NdArray, g: NdArray, r: NdArray, i: NdArray, z: NdArray,
    jpgData: NdArray,
    name: string,
    redshift: real, ra: real, dec: real)

  /** The field defaults of the dataclass. */
  const DefaultState: GalaxyState :=
    GalaxyState(EmptyArray, EmptyArray, EmptyArray, EmptyArray, EmptyArray,
                EmptyArray, "", 0.0, 0.0, 0.0)

  /** The name setter warns when the name would be cut in the info text. */
  predicate WouldWarn(name: string)
    ensures WouldWarn(name) <==> Truncate(name, InfoNamePrecision) != name
  {
    |name| > InfoNamePrecision
  }

  class Galaxy {
    var u: NdArray
    var g: NdArray
    var r: NdArray
    var i: NdArray
    var z: NdArray
    var jpgData: NdArray
    var name: string
    var redshift: real
    var ra: real
    var dec: real

    function State(): GalaxyState
      reads this
    {
      GalaxyState(u, g, r, i, z, jpgData, name, redshift, ra, dec)
    }

    /** `Galaxy()`: every field takes its default. */
    constructor ()
      ensures State() == DefaultState
      ensures Data() == (EmptyArray, EmptyArray, EmptyArray, EmptyArray, EmptyArray)
      ensures JpgData() == EmptyArray && Name() == ""
    {
      u, g, r, i, z := EmptyArray, EmptyArray, EmptyArray, EmptyArray, EmptyArray;
      jpgData := EmptyArray;
      name := "";
      redshift, ra, dec := 0.0, 0.0, 0.0;
    }

    /**
     * `Galaxy(...)` with every field given: the generated initialiser stores
     * the values as they are, without going through the name setter.
     */
    constructor Create(init: GalaxyState)
      ensures State() == init
    {
      u, g, r, i, z := init.u, init.g, init.r, init.i, init.z;
      jpgData := init.jpgData;
      name := init.name;
      redshift, ra, dec := init.redshift, init.ra, init.dec;
    }

    function Name(): string
      reads this
    {
      name
    }

    /**
     * The name setter: stores the name as given, whatever its length, and
     * warns exactly when it is longer than the info text shows.
     */
    method SetName(newName: string) returns (warned: bool)
      modifies this
      ensures Name() == newName
      ensures warned == WouldWarn(newName)
      ensures State() == old(State()).(name := newName)
    {
      warned := |newName| > InfoNamePrecision;
      name := newName;
    }

    function Data(): Bands
      reads this
    {
      (u, g, r, i, z)
    }

    /**
     * The data setter: unpacks exactly five values into u, g, r, i, z.
     * Unpacking checks the count before anything is stored, so a wrong
     * count changes nothing.
     */
    method SetData(data: seq<NdArray>) returns (outcome: Outcome)
      modifies this
      ensures |data| == 5 ==>
                && outcome == Pass
                && Data() == (data[0], data[1], data[2], data[3], data[4])
                && State() == old(State()).(u := data[0], g := data[1], r := data[2],
                                            i := data[3], z := data[4])
      ensures |data| > 5 ==> outcome == Fail(TooManyValues) && State() == old(State())
      ensures |data| < 5 ==> outcome == Fail(NotEnoughValues(|data|)) && State() == old(State())
    {
      if |data| > 5 {
        return Fail(TooManyValues);
      } else if |data| < 5 {
        return Fail(NotEnoughValues(|data|));
      }
      u, g, r, i, z := data[0], data[1], data[2], data[3], data[4];
      outcome := Pass;
    }

    function JpgData(): NdArray
      reads this
    {
      jpgData
    }

    /** The jpg_data setter: stores the preview image as given. */
    method SetJpgData(jpg: NdArray)
      modifies this
      ensures JpgData() == jpg
      ensures State() == old(State()).(jpgData := jpg)
    {
      jpgData := jpg;
    }
  }

  /**
   * The first line of the info text, `"Name: {name:>40.35s}\n"`: "Name: ",
   * then the first min(|name|, 35) characters of the name right-aligned in
   * 40 columns, then a newline. It always has 47 characters.
   */
  function InfoNameLine(name: string): (line: string)
    ensures |line| == 47
    ensures line[..6] == "Name: " && line[46] == '\n'
    ensures var k := Min(|name|, InfoNamePrecision);
            && line[46 - k..46] == name[..k]
            && forall j :: 6 <= j < 46 - k ==> line[j] == ' '
  {
    "Name: " + FormatString(name, InfoNameWidth, InfoNamePrecision) + "\n"
  }

  /**
   * Reads the name back from a first info line: drops "Name: ", the newline
   * and the alignment spaces.
   */
  function NameFromInfoLine(line: string): (name: Option<string>)
    ensures name.Some? ==> |name.value| < |line| && name.value == TrimLeft(name.value)
  {
    if |line| >= 7 && line[..6] == "Name: " && line[|line| - 1] == '\n'
    then Some(TrimLeft(line[6..|line| - 1]))
    else None
  }

  /**
   * Reading the name back from the info line yields the shown part of the
   * name, minus any leading spaces, which the alignment hides.
   */
  lemma InfoNameLineRoundTrip(name: string)
    ensures NameFromInfoLine(InfoNameLine(name)) ==
            Some(TrimLeft(Truncate(name, InfoNamePrecision)))
  {
    var shown := Truncate(name, InfoNamePrecision);
    var padded := Spaces(InfoNameWidth - |shown|) + shown;
    assert FormatString(name, InfoNameWidth, InfoNamePrecision) == padded;
    var line := "Name: " + padded + "\n";
    assert line[6..|line| - 1] == padded;
    TrimLeftAfterSpaces(Spaces(InfoNameWidth - |shown|), shown);
  }

  /**
   * A name of at most 35 characters that does not start with a space is
   * read back exactly from its info line.
   */
  lemma InfoNameLineRecoversName(name: string)
    requires |name| <= InfoNamePrecision
    requires name == "" || name[0] != ' '
    ensures NameFromInfoLine(InfoNameLine(name)) == Some(name)
  {
    assert Truncate(name, InfoNamePrecision) == name;
    TrimLeftNoLeadingSpace(name);
    InfoNameLineRoundTrip(name);
  }

  /** Characters past the 35th never reach the info line. */
  lemma InfoNameLineIgnoresTail(name: string, tail: string)
    requires |name| >= InfoNamePrecision
    ensures InfoNameLine(name + tail) == InfoNameLine(name)
  {
  }

  /** A leading space of a short name is indistinguishable in the info line. */
  lemma InfoNameLineHidesLeadingSpace(name: string)
    requires |name| < InfoNamePrecision
    ensures InfoNameLine(" " + name) == InfoNameLine(name)
  {
    assert Truncate(" " + name, InfoNamePrecision) == " " + name;
    assert Truncate(name, InfoNamePrecision) == name;
    assert Spaces(InfoNameWidth - |name| - 1) + (" " + name) == Spaces(InfoNameWidth - |name|) + name;
  }
}
