/** The room analyser page: an uploaded photo, a mock analysis started by a
    button and finished after a delay, and the catalogue products the analysis
    recommends. The photo is an opaque data URL; the delay is the explicit
    `FinishAnalysis` event. */
module RoomAnalyzer {
  import opened Types

  /** The fixed result every analysis produces. */
  const MockAnalysis: AnalysisResult := AnalysisResult(
    "Living Room",
    "Modern Minimalist",
    "Ambient lighting needed",
    [1, 3, 5],
    ["넓은 공간으로 천장 조명과 포인트 조명 조합이 이상적입니다",
     "미니멀한 인테리어에 맞는 깔끔한 디자인의 조명을 추천합니다",
     "따뜻한 색온도(2700K-3000K)로 아늑한 분위기를 연출하세요",
     "높은 천장을 활용해 펜던트 조명으로 공간에 리듬감을 주세요"])

  /** `getRecommendedProducts`: nothing before an analysis; afterwards the
      catalogue products whose id is recommended, in catalogue order. */
  function Recommended(products: seq<Product>, result: Option<AnalysisResult>): (r: seq<Product>)
    ensures |r| <= |products|
    ensures result.None? ==> r == []
    ensures result.Some? ==> forall p :: p in r <==> p in products && p.id in result.value.recommendations
  {
    if result.None? || products == [] then []
    else
      (if products[0].id in result.value.recommendations then [products[0]] else [])
      + Recommended(products[1..], result)
  }

  /** The selection keeps catalogue order: it distributes over concatenation. */
  lemma {:induction false} RecommendedAppend(a: seq<Product>, b: seq<Product>, result: Option<AnalysisResult>)
    ensures Recommended(a + b, result) == Recommended(a, result) + Recommended(b, result)
  {
    if result.Some? && a != [] {
      assert (a + b)[1..] == a[1..] + b;
      RecommendedAppend(a[1..], b, result);
    } else if a == [] {
      assert a + b == b;
    }
  }

  ghost predicate DistinctIds(products: seq<Product>)
  {
    forall i, j :: 0 <= i < j < |products| ==> products[i].id != products[j].id
  }

  function IdSet(products: seq<Product>): set<int>
  {
    if products == [] then {} else {products[0].id} + IdSet(products[1..])
  }

  lemma {:induction false} IdSetMembers(products: seq<Product>)
    ensures forall id :: id in IdSet(products) <==> exists p :: p in products && p.id == id
  {
    if products != [] {
      IdSetMembers(products[1..]);
      assert IdSet(products) == {products[0].id} + IdSet(products[1..]);
      forall id | id in IdSet(products) ensures exists p :: p in products && p.id == id {
        if id != products[0].id {
          var p :| p in products[1..] && p.id == id;
          assert p in products;
        }
      }
      forall id | exists p :: p in products && p.id == id ensures id in IdSet(products) {
        var p :| p in products && p.id == id;
        if p != products[0] {
          assert p in products[1..];
        }
      }
    }
  }

  lemma {:induction false} IdSetSize(products: seq<Product>)
    requires DistinctIds(products)
    ensures |IdSet(products)| == |products|
  {
    if products != [] {
      var rest := products[1..];
      assert DistinctIds(rest);
      IdSetSize(rest);
      IdSetMembers(rest);
      assert products[0].id !in IdSet(rest) by {
        forall p | p in rest ensures p.id != products[0].id {
          var k :| 0 <= k < |rest| && rest[k] == p;
          assert products[k + 1] == p;
        }
      }
    }
  }

  lemma SubsetSize(a: set<int>, b: set<int>)
    requires a <= b
    ensures |a| <= |b|
  {
    assert b == a + (b - a);
    assert a * (b - a) == {};
  }

  /** A selection from a catalogue with distinct ids has distinct ids. */
  lemma {:induction false} RecommendedDistinct(products: seq<Product>, result: Option<AnalysisResult>)
    requires DistinctIds(products)
    ensures DistinctIds(Recommended(products, result))
  {
    if result.Some? && products != [] {
      var rest := products[1..];
      assert DistinctIds(rest);
      RecommendedDistinct(rest, result);
      var tail := Recommended(rest, result);
      forall k | 0 <= k < |tail| ensures tail[k].id != products[0].id {
        assert tail[k] in rest;
        var m :| 0 <= m < |rest| && rest[m] == tail[k];
        assert products[m + 1] == tail[k];
      }
    }
  }

  /** The mock analysis recommends at most three products, when ids are distinct. */
  lemma MockRecommendsAtMostThree(products: seq<Product>)
    requires DistinctIds(products)
    ensures |Recommended(products, Some(MockAnalysis))| <= 3
  {
    var r := Recommended(products, Some(MockAnalysis));
    RecommendedDistinct(products, Some(MockAnalysis));
    IdSetSize(r);
    IdSetMembers(r);
    forall id | id in IdSet(r) ensures id in {1, 3, 5} {
      var p :| p in r && p.id == id;
      assert p.id in MockAnalysis.recommendations;
    }
    SubsetSize(IdSet(r), {1, 3, 5});
  }

  class AnalyzerPage {
    var uploadedImage: Option<string>
    var isAnalyzing: bool
    var analysisResult: Option<AnalysisResult>

    constructor ()
      ensures uploadedImage == None && !isAnalyzing && analysisResult == None
    {
      uploadedImage := None;
      isAnalyzing := false;
      analysisResult := None;
    }

    /** `handleImageUpload`: with no file chosen nothing happens; once a file is
        read, its data URL becomes the photo and any earlier result is dropped. */
    method HandleImageUpload(file: Option<string>)
      modifies this
      ensures file.None? ==> uploadedImage == old(uploadedImage) && analysisResult == old(analysisResult)
      ensures file.Some? ==> uploadedImage == file && analysisResult == None
      ensures isAnalyzing == old(isAnalyzing)
    {
      if file.Some? {
        uploadedImage := file;
        analysisResult := None;
      }
    }

    /** The start of `analyzeRoom`: without a photo (null or empty) it returns
        at once; otherwise the analysis is marked as running. */
    method AnalyzeRoom()
      modifies this
      ensures uploadedImage == old(uploadedImage) && analysisResult == old(analysisResult)
      ensures isAnalyzing == (old(isAnalyzing) || (uploadedImage.Some? && uploadedImage.value != ""))
    {
      if uploadedImage.None? || uploadedImage.value == "" {
        return;
      }
      isAnalyzing := true;
    }

    /** The end of `analyzeRoom`, after its delay: the mock result is stored and
        the analysis is no longer running. */
    method FinishAnalysis()
      modifies this
      ensures analysisResult == Some(MockAnalysis) && !isAnalyzing
      ensures uploadedImage == old(uploadedImage)
    {
      analysisResult := Some(MockAnalysis);
      isAnalyzing := false;
    }

    /** `getRecommendedProducts` for the current result. */
    function RecommendedProducts(products: seq<Product>): seq<Product>
      reads this
    {
      Recommended(products, analysisResult)
    }
  }
}
