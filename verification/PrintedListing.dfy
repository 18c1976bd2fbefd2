/** A listing that is printed, encoded, cut into reads and read again. */
module PrintedListing {
  import opened Text
  import opened Json
  import opened JsonPrint
  import opened StagingScan
  import opened StagingReader
  import Utf8

  lemma PrintedIsWholeArray(items: seq<Value>, loose: bool)
    requires PrintableItems(items)
    ensures WholeArray(Print(List(items)), loose) == Some(items)
  {
    var t, body := Print(List(items)), PrintItems(items) + ([CLOSE_LIST] + []);
    assert t == [OPEN_LIST] + body && t[1..] == body;
    NothingSkipped(t, loose);
    NothingSkipped(body, loose) by {
      if items != [] {
        PrintStarts(items[0]);
        assert body[0] == Print(items[0])[0];
      }
    }
    if items == [] {
      assert body[1..] == [];
    } else {
      PrintStarts(items[0]);
      assert body[0] == Print(items[0])[0];
      ItemsAreRead(items, [], loose);
    }
  }

  /** From the items to the scan: a listing printed as JSON, encoded in UTF-8 and cut into reads that never leave more
    than the limit over is accepted exactly if its items can be counted and listed, and then the scan counts them and
    holds exactly the files under staging names, in order, with the ids of their tasks. */
  lemma PrintedListingIsRead(items: seq<Value>, chunks: seq<seq<Utf8.Byte>>)
    requires PrintableItems(items) && forall i | 0 <= i < |Print(List(items))| :: Utf8.Scalar(Print(List(items))[i])
    requires Concat(chunks) == Utf8.EncodeAll(Print(List(items))) && Within(chunks)
    ensures ReadAll(chunks, 0).Goes? <==> Acceptable(items)
    ensures ReadAll(chunks, 0).Goes? ==> Holds(ReadAll(chunks, 0).scan, items)
  {
    Utf8.DecodedIsEncoded(Print(List(items)));
    PrintedIsWholeArray(items, true);
    ReadingLists(chunks, 0);
  }
}
