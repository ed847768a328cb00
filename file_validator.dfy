/** Schema check of an uploaded CSV: every column required for its file type must be
    present; the pages go on only when the result's status is success. */
module FileValidator {
  import opened Wrappers

  /** The status field: "success" (Validated) or "error" (Invalid). */
  datatype Status = Validated | Invalid

  /** The returned record: status, message and the table (None on error). */
  datatype ValidationResult<T> = ValidationResult(status: Status, message: string, data: Option<T>)

  /** Reading the CSV: its header and table, or the reason it could not be read. */
  datatype ReadOutcome<T> = Read(columns: seq<string>, table: T) | ReadFailed(reason: string)

  const AssetColumns: seq<string> :=
    ["Asset Name", "Location", "Floor Area (m²)", "Carbon Intensity (kgCO2e/m²)", "EPC Rating"]
  const UtilityColumns: seq<string> :=
    ["Asset Name", "Month", "Energy Consumption (kWh)", "Water Consumption (m³)", "Waste (kg)"]

  /** Required columns per file type; an unknown type is a missing key. */
  function RequiredColumns(fileType: string): (r: Option<seq<string>>)
    ensures r.Some? <==> fileType == "assets" || fileType == "utilities"
  {
    if fileType == "assets" then Some(AssetColumns)
    else if fileType == "utilities" then Some(UtilityColumns)
    else None
  }

  /** `a` is `b` with some elements left out, the rest in their order. */
  ghost predicate IsSubsequence(a: seq<string>, b: seq<string>)
    decreases |b|
  {
    if a == [] then true
    else if b == [] then false
    else if a[0] == b[0] then IsSubsequence(a[1..], b[1..])
    else IsSubsequence(a, b[1..])
  }

  /** The required columns absent from the header, in required order. */
  function MissingColumns(required: seq<string>, columns: seq<string>): (m: seq<string>)
    ensures forall c :: c in m <==> c in required && c !in columns
    ensures IsSubsequence(m, required)
    ensures m == [] <==> forall c :: c in required ==> c in columns
  {
    if required == [] then []
    else if required[0] in columns then MissingColumns(required[1..], columns)
    else [required[0]] + MissingColumns(required[1..], columns)
  }

  /** Total length of the names. */
  function TotalLength(names: seq<string>): nat {
    if names == [] then 0 else |names[0]| + TotalLength(names[1..])
  }

  /** Where the k-th name starts in the joined text: the names before it and one
      separator after each of them. */
  function Offset(names: seq<string>, sep: string, k: nat): nat
    requires k <= |names|
  {
    TotalLength(names[..k]) + k * |sep|
  }

  /** Dropping the first name moves every later start back by that name and one separator. */
  lemma OffsetShift(names: seq<string>, sep: string)
    requires names != []
    ensures forall k :: 1 <= k <= |names| ==>
              Offset(names, sep, k) == |names[0]| + |sep| + Offset(names[1..], sep, k - 1)
  {
    forall k | 1 <= k <= |names|
      ensures Offset(names, sep, k) == |names[0]| + |sep| + Offset(names[1..], sep, k - 1)
    {
      assert names[..k][1..] == names[1..][..k - 1];
    }
  }

  /** `j` holds every name at its offset, and a separator just before every name but the first. */
  predicate LaidOut(names: seq<string>, sep: string, j: string) {
    && (forall k :: 0 <= k < |names| ==>
          Offset(names, sep, k) + |names[k]| <= |j|
          && j[Offset(names, sep, k)..Offset(names, sep, k) + |names[k]|] == names[k])
    && (forall k :: 0 < k < |names| ==>
          |sep| <= Offset(names, sep, k) <= |j|
          && j[Offset(names, sep, k) - |sep|..Offset(names, sep, k)] == sep)
  }

  /** Putting a name and a separator in front of a joined tail lays out the longer list. */
  lemma ConsLaidOut(names: seq<string>, sep: string, rest: string)
    requires |names| >= 2 && LaidOut(names[1..], sep, rest)
    ensures LaidOut(names, sep, names[0] + sep + rest)
  {
    OffsetShift(names, sep);
    assert names[..0] == [] && names[1..][..0] == [];
    ConsNamesAt(names, sep, rest);
    ConsSeparatorsAt(names, sep, rest);
  }

  /** The names part of `ConsLaidOut`. */
  lemma ConsNamesAt(names: seq<string>, sep: string, rest: string)
    requires |names| >= 2 && LaidOut(names[1..], sep, rest)
    requires Offset(names, sep, 0) == 0
    requires forall k :: 1 <= k <= |names| ==>
               Offset(names, sep, k) == |names[0]| + |sep| + Offset(names[1..], sep, k - 1)
    ensures forall k :: 0 <= k < |names| ==>
              Offset(names, sep, k) + |names[k]| <= |names[0] + sep + rest|
              && (names[0] + sep + rest)[Offset(names, sep, k)..Offset(names, sep, k) + |names[k]|] == names[k]
  {
    var head := names[0] + sep;
    var j := head + rest;
    forall k | 0 <= k < |names|
      ensures Offset(names, sep, k) + |names[k]| <= |j|
      ensures j[Offset(names, sep, k)..Offset(names, sep, k) + |names[k]|] == names[k]
    {
      if k == 0 {
        assert j[..|names[0]|] == names[0];
      } else {
        var o := Offset(names[1..], sep, k - 1);
        assert names[1..][k - 1] == names[k];
        assert j[|head| + o..|head| + o + |names[k]|] == rest[o..o + |names[k]|];
      }
    }
  }

  /** The separators part of `ConsLaidOut`. */
  lemma ConsSeparatorsAt(names: seq<string>, sep: string, rest: string)
    requires |names| >= 2 && LaidOut(names[1..], sep, rest)
    requires forall k :: 1 <= k <= |names| ==>
               Offset(names, sep, k) == |names[0]| + |sep| + Offset(names[1..], sep, k - 1)
    requires Offset(names[1..], sep, 0) == 0
    ensures forall k :: 0 < k < |names| ==>
              |sep| <= Offset(names, sep, k) <= |names[0] + sep + rest|
              && (names[0] + sep + rest)[Offset(names, sep, k) - |sep|..Offset(names, sep, k)] == sep
  {
    var head := names[0] + sep;
    var j := head + rest;
    forall k | 0 < k < |names|
      ensures |sep| <= Offset(names, sep, k) <= |j|
      ensures j[Offset(names, sep, k) - |sep|..Offset(names, sep, k)] == sep
    {
      if k == 1 {
        assert j[|names[0]|..|head|] == sep;
      } else {
        var o := Offset(names[1..], sep, k - 1);
        assert j[|head| + o - |sep|..|head| + o] == rest[o - |sep|..o];
      }
    }
  }

  /** `sep.join(names)`: the names in order, one separator between neighbours. */
  function Join(names: seq<string>, sep: string): (j: string)
    ensures names == [] ==> j == ""
    ensures names != [] ==> |j| == TotalLength(names) + (|names| - 1) * |sep|
    ensures names != [] ==> j[..|names[0]|] == names[0]
  {
    if names == [] then ""
    else if |names| == 1 then names[0]
    else names[0] + sep + Join(names[1..], sep)
  }

  /** The joined text holds every name at its offset with a separator before each later name;
      with the length of `Join`, nothing else is in it. */
  lemma {:induction false} JoinLayout(names: seq<string>, sep: string)
    ensures LaidOut(names, sep, Join(names, sep))
  {
    if |names| == 1 {
      assert names[..0] == [];
    } else if |names| >= 2 {
      JoinLayout(names[1..], sep);
      ConsLaidOut(names, sep, Join(names[1..], sep));
    }
  }

  const SuccessMessage: string := "File validated successfully."

  function ValidateCsv<T>(read: ReadOutcome<T>, fileType: string): (r: ValidationResult<T>)
    ensures r.status == Invalid <==>
              read.ReadFailed? || RequiredColumns(fileType).None?
              || MissingColumns(RequiredColumns(fileType).value, read.columns) != []
    ensures r.data.Some? <==> r.status == Validated
    ensures r.status == Validated ==> r.message == SuccessMessage && r.data == Some(read.table)
    ensures read.ReadFailed? ==> r.message == read.reason
    ensures read.Read? && RequiredColumns(fileType).None? ==> r.message == "'" + fileType + "'"
    ensures read.Read? && RequiredColumns(fileType).Some? &&
            MissingColumns(RequiredColumns(fileType).value, read.columns) != [] ==>
              r.message == "Missing columns: " + Join(MissingColumns(RequiredColumns(fileType).value, read.columns), ", ")
  {
    match read
    case ReadFailed(reason) => ValidationResult(Invalid, reason, None)
    case Read(columns, table) =>
      match RequiredColumns(fileType)
      case None => ValidationResult(Invalid, "'" + fileType + "'", None)
      case Some(required) =>
        var missing := MissingColumns(required, columns);
        if missing != [] then ValidationResult(Invalid, "Missing columns: " + Join(missing, ", "), None)
        else ValidationResult(Validated, SuccessMessage, Some(table))
  }

  /** A header holding every required column, whatever else it holds, validates. */
  lemma AllRequiredPresent<T>(columns: seq<string>, table: T, fileType: string)
    requires RequiredColumns(fileType).Some?
    requires forall c :: c in RequiredColumns(fileType).value ==> c in columns
    ensures ValidateCsv(Read(columns, table), fileType) == ValidationResult(Validated, SuccessMessage, Some(table))
  {
  }

  /** A header lacking one required column is refused, and the message names that column. */
  lemma OneMissingColumn<T>(columns: seq<string>, table: T, fileType: string, c: string)
    requires RequiredColumns(fileType).Some?
    requires c in RequiredColumns(fileType).value && c !in columns
    ensures ValidateCsv(Read(columns, table), fileType).status == Invalid
    ensures ValidateCsv(Read(columns, table), fileType).data == None
    ensures c in MissingColumns(RequiredColumns(fileType).value, columns)
  {
  }
}
