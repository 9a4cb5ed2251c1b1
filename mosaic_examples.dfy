/**
  * Concrete inputs of the mosaic script worked through the model: the
  * output-name suffix order, a junk header read as a path, and a header
  * padded with spaces that finds no column.
  */
module MosaicExamples {
  import opened Wrappers
  import opened Text
  import opened Mosaic

  lemma JunkHeaderX()
    ensures StripFields(["x"]) == ["x"] && JunkHeader(["x"])
  {
    StripFieldsOne("x");
    var x := "x";
    assert x[0] == 'x' && !IsSpace(x[0]);
    assert Strip(x, IsSpace) == x;
    assert Lower(x)[0] == 'x';
    assert Lower(x) == x;
  }

  lemma JunkHeaderXReadsFirstColumn()
    ensures CollectedPaths([["x"], ["a.jpg"]], DefaultColumn) == FirstColumnPaths([["x"], ["a.jpg"]])
  {
    JunkHeaderX();
    JunkHeaderReadsFirstColumn([["x"], ["a.jpg"]], DefaultColumn);
  }

  lemma KeptX()
    ensures Kept("x") == ["x"]
  {
    KeptClean("x");
  }

  lemma KeptJpg()
    ensures Kept("a.jpg") == ["a.jpg"]
  {
    KeptClean("a.jpg");
  }

  lemma FirstColumnOfXAndJpg()
    ensures FirstColumnPaths([["x"], ["a.jpg"]]) == ["x", "a.jpg"]
  {
    FirstColumnOfTwo("x", "a.jpg");
    KeptX();
    KeptJpg();
  }

  /** Under a junk header `x` the header row itself is collected as a path. */
  lemma JunkHeaderIsCollected()
    ensures CollectedPaths([["x"], ["a.jpg"]], DefaultColumn) == ["x", "a.jpg"]
  {
    JunkHeaderXReadsFirstColumn();
    FirstColumnOfXAndJpg();
  }

  lemma StripPaddedColumn()
    ensures Strip(" filepath", IsSpace) == DefaultColumn
  {
    var w := DefaultColumn;
    assert w[0] == 'f' && w[|w| - 1] == 'h';
    assert [' '] + w == " filepath";
    StripOneLeadingSpace(' ', w);
  }

  lemma PaddedHeaderStripped()
    ensures StripFields([" filepath"]) == [DefaultColumn] && !JunkHeader([DefaultColumn])
  {
    StripFieldsOne(" filepath");
    StripPaddedColumn();
    assert Lower(DefaultColumn)[0] == 'f';
  }

  lemma PaddedHeaderLookup()
    ensures FieldValue([" filepath"], ["a.jpg"], DefaultColumn) == ""
  {
    var header := [" filepath"];
    assert header[0] != DefaultColumn;
    assert LastIndexOf(header, DefaultColumn) == None;
    FieldValueLastIndex(header, ["a.jpg"], DefaultColumn);
  }

  /** A header padded with spaces is matched after stripping but looked up as written, so nothing is found. */
  lemma PaddedHeaderFindsNothing()
    ensures CollectedPaths([[" filepath"], ["a.jpg"]], DefaultColumn) == []
  {
    var rows := [[" filepath"], ["a.jpg"]];
    PaddedHeaderStripped();
    assert DetectColumn(StripFields(rows[0]), DefaultColumn) == Some(DefaultColumn);
    HeaderReadsColumn(rows, DefaultColumn);
    assert rows[1..] == [["a.jpg"]];
    ColumnPathsOne(rows[0], DefaultColumn, ["a.jpg"]);
    PaddedHeaderLookup();
  }

  /** A compressed CSV loses both suffixes, whatever their case. */
  lemma StemOfCompressedCsv()
    ensures Stem("a.CSV.gz") == "a"
  {
    var name := "a.CSV.gz";
    assert name[5..] == ".gz" && name[..5] == "a.CSV";
    LowerSlice(name, 5, 8);
    LowerNoUpper(".gz");
    assert EndsWith(Lower(name), ".gz");
    var base := "a.CSV";
    assert base[1..] == ".CSV" && base[..1] == "a";
    LowerSlice(base, 1, 5);
    assert Lower(".CSV") == ".csv";
    assert EndsWith(Lower(base), ".csv");
  }

  /** The suffixes are removed in one order only: a `.gz` before `.csv` stays. */
  lemma StemKeepsInnerGz()
    ensures Stem("a.gz.csv") == "a.gz"
  {
    var name := "a.gz.csv";
    LowerNoUpper(name);
    assert name[5..] == "csv" && name[4..] == ".csv" && name[..4] == "a.gz";
    assert !EndsWith(Lower(name), ".gz");
    assert EndsWith(Lower(name), ".csv");
  }
}
