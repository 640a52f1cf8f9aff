/**
 * The record list `upsert_documents` builds in src/pinecone_utils.py before handing
 * it to the index: one record per document, with id "doc-<i>", the document's
 * vector and its text as metadata.
 *
 * The embedding call and the upsert are foreign; the vectors are a parameter of any
 * type `V`.
 */
module PineconeUtils {
  import opened Wrappers
  import opened Schema

  /** The decimal form of `n`, as an f-string writes it: no sign, no leading zero. */
  function Decimal(n: nat): (s: string)
    ensures s != []
    ensures forall i :: 0 <= i < |s| ==> '0' <= s[i] <= '9'
    ensures |s| > 1 ==> s[0] != '0'
    decreases n
  {
    if n < 10 then [DigitChar(n)] else Decimal(n / 10) + [DigitChar(n % 10)]
  }

  function DigitChar(d: nat): (c: char)
    requires d < 10
    ensures '0' <= c <= '9'
  {
    ('0' as int + d) as char
  }

  /** The number a string of decimal digits stands for. */
  function ParseDecimal(s: string): (n: nat)
    decreases |s|
  {
    if s == [] then 0
    else
      var last := s[|s| - 1] as int - '0' as int;
      ParseDecimal(s[..|s| - 1]) * 10 + (if 0 <= last < 10 then last else 0)
  }

  /** Reading back the decimal form gives the number. */
  lemma {:induction false} DecimalRoundTrip(n: nat)
    ensures ParseDecimal(Decimal(n)) == n
    decreases n
  {
    if n >= 10 {
      DecimalRoundTrip(n / 10);
      var s := Decimal(n);
      assert s[..|s| - 1] == Decimal(n / 10);
    }
  }

  /** Line 21: `f"doc-{i}"`: "doc-" and then digits that read back as `i`. */
  function RecordId(i: nat): (id: string)
    ensures |id| > 4 && id[..4] == "doc-"
    ensures ParseDecimal(id[4..]) == i
    ensures forall k :: 4 <= k < |id| ==> '0' <= id[k] <= '9'
    ensures |id| > 5 ==> id[4] != '0'
  {
    DecimalRoundTrip(i);
    "doc-" + Decimal(i)
  }

  /** Different indices give different ids. */
  lemma {:induction false} RecordIdInjective(i: nat, j: nat)
    ensures RecordId(i) == RecordId(j) <==> i == j
  {
    if RecordId(i) == RecordId(j) {
      assert Decimal(i) == RecordId(i)[4..];
      assert Decimal(j) == RecordId(j)[4..];
      DecimalRoundTrip(i);
      DecimalRoundTrip(j);
    }
  }

  /** `{"id": ..., "values": ..., "metadata": {"text": ...}}`. */
  datatype Record<V> = Record(id: string, values: V, metadata: map<string, string>)

  /** Lines 20 to 23: one record per text, in order; `vectors[i]` raises
      `IndexError` (here `None`) when there are fewer vectors than texts. */
  function UpsertData<V>(texts: seq<string>, vectors: seq<V>): (r: Option<seq<Record<V>>>)
    ensures r.None? <==> |vectors| < |texts|
    ensures r.Some? ==> |r.value| == |texts|
    ensures r.Some? ==> forall i :: 0 <= i < |texts| ==>
              r.value[i] == Record(RecordId(i), vectors[i], map["text" := texts[i]])
  {
    if |vectors| < |texts| then None
    else Some(seq(|texts|, i requires 0 <= i < |texts| => Record(RecordId(i), vectors[i], map["text" := texts[i]])))
  }

  /** The records `upsert_documents` sends for `documents` and their embeddings; line
      18 takes the texts from the documents in order. */
  function DocumentRecords<V>(documents: seq<Document>, vectors: seq<V>): (r: Option<seq<Record<V>>>)
    ensures r.None? <==> |vectors| < |documents|
    ensures r.Some? ==> |r.value| == |documents|
    ensures r.Some? ==> forall i :: 0 <= i < |documents| ==>
              r.value[i].metadata == map["text" := documents[i].pageContent]
  {
    UpsertData(PageContents(documents), vectors)
  }

  /** No two records share an id, every id reads back as its record's position, and
      record i carries document i's text. */
  lemma {:induction false} RecordsWellFormed<V>(documents: seq<Document>, vectors: seq<V>)
    requires |vectors| >= |documents|
    ensures DocumentRecords(documents, vectors).Some?
    ensures var records := DocumentRecords(documents, vectors).value;
            && |records| == |documents|
            && (forall i, j :: 0 <= i < j < |records| ==> records[i].id != records[j].id)
            && (forall i :: 0 <= i < |records| ==> ParseDecimal(records[i].id[4..]) == i)
            && (forall i :: 0 <= i < |records| ==> records[i].metadata["text"] == documents[i].pageContent)
            && (forall i :: 0 <= i < |records| ==> records[i].values == vectors[i])
  {
    var records := DocumentRecords(documents, vectors).value;
    forall i, j | 0 <= i < j < |records| ensures records[i].id != records[j].id {
      RecordIdInjective(i, j);
    }
    forall i | 0 <= i < |records| ensures ParseDecimal(records[i].id[4..]) == i {
      assert records[i].id[4..] == Decimal(i);
      DecimalRoundTrip(i);
    }
  }
}
