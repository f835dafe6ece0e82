/** The file list of the simulated instruments: one name per day, built from the data
    path and the date, for a fixed span of a year and a day. There are no files to
    fetch. */
module SimFiles {
  import opened Wrappers
  import opened Text
  import opened Calendar

  const FirstDay: Date := Date(2017, 12, 1)
  const LastDay: Date := Date(2018, 12, 1)
  const Suffix := ".nofile"

  /** A `pandas.Series` of file names indexed by date. */
  datatype FileList = FileList(index: seq<Date>, names: seq<string>)

  /** The name of the file for one date. */
  function FileName(dataPath: string, d: Date): string
    requires Calendar.Valid(d)
  {
    dataPath + FormatDate(d) + Suffix
  }

  /** `_list_files`: every day from 2017-12-01 to 2018-12-01, both included, and its
      file name. Without a data path the concatenation fails. */
  function ListFiles(dataPath: Option<string>): (r: Result<FileList, Exception>)
    ensures r.Err? <==> dataPath.None?
    ensures r.Err? ==> r.error == TypeError
    ensures r.Ok? ==>
      |r.value.index| == |r.value.names| == Ordinal(LastDay) - Ordinal(FirstDay) + 1
      && r.value.index[0] == FirstDay && r.value.index[|r.value.index| - 1] == LastDay
      && (forall i :: 0 <= i < |r.value.index| ==>
            Calendar.Valid(r.value.index[i]) && Ordinal(r.value.index[i]) == Ordinal(FirstDay) + i
            && r.value.names[i] == FileName(dataPath.value, r.value.index[i]))
  {
    if dataPath.None? then Err(TypeError)
    else
      SpanOrdinals();
      var index := DatesBetween(FirstDay, LastDay);
      var names := seq(|index|, i requires 0 <= i < |index| => FileName(dataPath.value, index[i]));
      Ok(FileList(index, names))
  }

  /** The day numbers of the first and the last day of the span. */
  lemma SpanOrdinals()
    ensures Calendar.Valid(FirstDay) && Calendar.Valid(LastDay)
    ensures Ordinal(FirstDay) == 736664 && Ordinal(LastDay) == 737029
  {
    assert DaysBeforeYear(2017) == 736329;
    assert DaysBeforeYear(2018) == 736694;
  }

  /** The span holds 366 days, in ascending order with no day missing or repeated. */
  lemma ListFilesSpan(dataPath: string)
    ensures var r := ListFiles(Some(dataPath));
      r.Ok? && |r.value.index| == 366
      && forall i, j :: 0 <= i < j < 366 ==> Ordinal(r.value.index[i]) < Ordinal(r.value.index[j])
  {
    SpanOrdinals();
  }

  /** A date is written as four, two and two zero-padded digits joined by '-'. */
  lemma FormatDateFields(d: Date)
    requires Calendar.Valid(d) && 1000 <= d.year
    ensures var y, m, dd := PadDecimal(d.year, 4), PadDecimal(d.month, 2), PadDecimal(d.day, 2);
      FormatDate(d) == y + "-" + m + "-" + dd
      && |y| == 4 && |m| == 2 && |dd| == 2
      && AllDigits(y) && AllDigits(m) && AllDigits(dd)
      && Value(y) == d.year && Value(m) == d.month && Value(dd) == d.day
  {
    PadDecimalValue(d.year, 4);
    PadDecimalValue(d.month, 2);
    PadDecimalValue(d.day, 2);
    assert Pow10(4) == 10000 && Pow10(2) == 100;
    PadDecimalLength(d.year, 4);
    PadDecimalLength(d.month, 2);
    PadDecimalLength(d.day, 2);
  }

  /** The data path is put in front of the date as it is, with no separator added. */
  lemma NoSeparatorAdded(dataPath: string, d: Date)
    requires Calendar.Valid(d) && 1000 <= d.year
    ensures FileName(dataPath, d)[..|dataPath|] == dataPath
    ensures FileName(dataPath, d)[|dataPath|] == PadDecimal(d.year, 4)[0]
  {
    FormatDateFields(d);
  }
}
