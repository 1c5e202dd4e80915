/** The recommender of mygo/recommend_mygo_image.py: it reads the emotion,
    tone and intent tags that the tone classifier produced, turns them into
    search keywords through the tag -> keyword mapping, searches reaction
    images for every keyword and returns at most three of them, or an
    apology when nothing was found. */
module RecommendMygoImage {
  import opened Sequences

  type Tag = string
  type Keyword = string
  /** A reference to one image, as the fuzzy image search returns it. */
  type Candidate = string

  /** The contents of mapping_mygo.json: tag -> keywords, in table order. */
  type Mapping = map<Tag, seq<Keyword>>

  /** The classifier's reply once parsed as a JSON object with string values. */
  type ToneJson = map<string, string>

  /** The image search used for one keyword (`find_images_by_text` with
      download=False and max_results=3), given as a parameter. */
  type Search = Keyword -> seq<Candidate>

  /** The keyword used when no tag produced any keyword. */
  const Fallback: Keyword := "笑"

  /** The message returned when no keyword produced any image. */
  const Apology: string := "找不到適合的表情包QQ"

  /** The number of images the search returns per keyword at most, and the
      number of images the recommender returns at most. */
  const MaxResults: nat := 3

  /** The three tags the recommender reads from the classifier's reply. */
  datatype Profile = Profile(emotion: Tag, tone: Tag, intent: Tag)

  /** The recommender's two outcomes: the apology string or a list of images. */
  datatype Recommendation = NoMatch(msg: string) | Images(images: seq<Candidate>)

  /** The promise of the search collaborator: never more than max_results. */
  ghost predicate CapsResults(search: Search)
  {
    forall kw :: |search(kw)| <= MaxResults
  }

  /** `data.get(key, "")`. */
  function Get(data: ToneJson, key: string): string
  {
    if key in data then data[key] else ""
  }

  /** Reads the three tags out of the parsed reply; a missing field reads as
      the empty string. */
  function ReadProfile(data: ToneJson): (p: Profile)
    ensures "emotion" in data ==> p.emotion == data["emotion"]
    ensures "emotion" !in data ==> p.emotion == ""
    ensures "tone" in data ==> p.tone == data["tone"]
    ensures "tone" !in data ==> p.tone == ""
    ensures "intent" in data ==> p.intent == data["intent"]
    ensures "intent" !in data ==> p.intent == ""
  {
    Profile(Get(data, "emotion"), Get(data, "tone"), Get(data, "intent"))
  }

  /** The tags in lookup order: emotion, then tone, then intent. */
  function Tags(p: Profile): seq<Tag>
  {
    [p.emotion, p.tone, p.intent]
  }

  /** The keywords one tag adds: its table entry, or nothing when the tag is
      not a key of the mapping. */
  function Contribution(mapping: Mapping, tag: Tag): seq<Keyword>
  {
    if tag in mapping then mapping[tag] else []
  }

  /** The keywords the lookup loop collects from a list of tags. */
  function Matched(mapping: Mapping, tags: seq<Tag>): seq<Keyword>
  {
    FlatMap((tag: Tag) => Contribution(mapping, tag), tags)
  }

  /** The keyword list that is searched: the matched keywords, or the
      fallback keyword alone when none matched. */
  function ResolveKeywords(mapping: Mapping, p: Profile): (keywords: seq<Keyword>)
    ensures keywords != []
  {
    var matched := Matched(mapping, Tags(p));
    if matched == [] then [Fallback] else matched
  }

  /** All images found, keyword by keyword, each keyword's in rank order. */
  function Merged(search: Search, keywords: seq<Keyword>): seq<Candidate>
  {
    FlatMap(search, keywords)
  }

  /** `s[:n]` in Python: the whole list when it is shorter than n. */
  function Take<T>(s: seq<T>, n: nat): (r: seq<T>)
    ensures |r| == if |s| < n then |s| else n
    ensures r == s[..|r|]
  {
    if |s| <= n then s else s[..n]
  }

  /** What the recommender returns for a parsed classifier reply. */
  function RecommendFor(mapping: Mapping, search: Search, data: ToneJson): Recommendation
  {
    var results := Merged(search, ResolveKeywords(mapping, ReadProfile(data)));
    if results == [] then NoMatch(Apology) else Images(Take(results, MaxResults))
  }

  /** Step 2 of the source: extend the keyword list with the entry of every
      tag that is a key, in tag order, then fall back to the default keyword. */
  method CollectKeywords(mapping: Mapping, p: Profile) returns (keywords: seq<Keyword>)
    ensures keywords == ResolveKeywords(mapping, p)
  {
    var tags := Tags(p);
    keywords := [];
    var i := 0;
    while i < |tags|
      invariant 0 <= i <= |tags|
      invariant keywords == Matched(mapping, tags[..i])
    {
      FlatMapStep((tag: Tag) => Contribution(mapping, tag), tags, i);
      if tags[i] in mapping {
        keywords := keywords + mapping[tags[i]];
      }
      i := i + 1;
    }
    assert tags[..i] == tags;
    if keywords == [] {
      keywords := [Fallback];
    }
  }

  /** Step 3 of the source: extend the result list with every non-empty
      search result, in keyword order. */
  method MergeResults(search: Search, keywords: seq<Keyword>) returns (results: seq<Candidate>)
    ensures results == Merged(search, keywords)
  {
    results := [];
    var i := 0;
    while i < |keywords|
      invariant 0 <= i <= |keywords|
      invariant results == Merged(search, keywords[..i])
    {
      FlatMapStep(search, keywords, i);
      var images := search(keywords[i]);
      if images != [] {
        results := results + images;
      }
      i := i + 1;
    }
    assert keywords[..i] == keywords;
  }

  /** `recommend_mygo_image` from the parsed classifier reply on. */
  method Recommend(mapping: Mapping, search: Search, data: ToneJson) returns (r: Recommendation)
    ensures r == RecommendFor(mapping, search, data)
    ensures r.NoMatch? ==> r.msg == Apology
    ensures r.Images? ==> 0 < |r.images| <= MaxResults
  {
    var p := ReadProfile(data);
    var keywords := CollectKeywords(mapping, p);
    var results := MergeResults(search, keywords);
    if results == [] {
      r := NoMatch(Apology);
    } else {
      r := Images(Take(results, MaxResults));
    }
  }

  // Properties of keyword resolution

  /** The matched keywords are exactly the emotion entry, then the tone
      entry, then the intent entry, with nothing removed or reordered. */
  lemma MatchedInOrder(mapping: Mapping, p: Profile)
    ensures Matched(mapping, Tags(p))
         == Contribution(mapping, p.emotion) + Contribution(mapping, p.tone) + Contribution(mapping, p.intent)
  {
    var f := (tag: Tag) => Contribution(mapping, tag);
    FlatMapAppend(f, [p.emotion, p.tone], [p.intent]);
    FlatMapAppend(f, [p.emotion], [p.tone]);
    FlatMapSingleton(f, p.emotion);
    FlatMapSingleton(f, p.tone);
    FlatMapSingleton(f, p.intent);
    assert Tags(p) == [p.emotion, p.tone] + [p.intent];
    assert [p.emotion, p.tone] == [p.emotion] + [p.tone];
  }

  /** The searched keywords: the three entries concatenated when that is
      non-empty, and the fallback keyword alone otherwise. */
  lemma ResolvedKeywords(mapping: Mapping, p: Profile)
    ensures var matched := Contribution(mapping, p.emotion) + Contribution(mapping, p.tone)
                           + Contribution(mapping, p.intent);
            ResolveKeywords(mapping, p) == if matched == [] then [Fallback] else matched
  {
    MatchedInOrder(mapping, p);
  }

  /** When no tag is a key of the mapping, only the fallback is searched. */
  lemma NoTagMatches(mapping: Mapping, p: Profile)
    requires p.emotion !in mapping && p.tone !in mapping && p.intent !in mapping
    ensures ResolveKeywords(mapping, p) == [Fallback]
  {
    MatchedInOrder(mapping, p);
  }

  /** When every tag that is a key maps to an empty list, only the fallback
      is searched too. */
  lemma AllEntriesEmpty(mapping: Mapping, p: Profile)
    requires forall tag :: tag in Tags(p) && tag in mapping ==> mapping[tag] == []
    ensures ResolveKeywords(mapping, p) == [Fallback]
  {
    assert p.emotion in Tags(p) && p.tone in Tags(p) && p.intent in Tags(p);
    MatchedInOrder(mapping, p);
  }

  /** No deduplication: every tag adds all of its entry, so the number of
      keywords is the sum of the entries' lengths, repetitions included. */
  lemma KeywordCount(mapping: Mapping, p: Profile)
    requires Matched(mapping, Tags(p)) != []
    ensures |ResolveKeywords(mapping, p)|
         == |Contribution(mapping, p.emotion)| + |Contribution(mapping, p.tone)| + |Contribution(mapping, p.intent)|
  {
    MatchedInOrder(mapping, p);
  }

  /** A tag given in two fields adds its entry twice. */
  lemma RepeatedTag(mapping: Mapping, tag: Tag, intent: Tag)
    requires tag in mapping && mapping[tag] != []
    ensures ResolveKeywords(mapping, Profile(tag, tag, intent))
         == mapping[tag] + mapping[tag] + Contribution(mapping, intent)
  {
    MatchedInOrder(mapping, Profile(tag, tag, intent));
  }

  /** Each field of the reply is looked up as it stands, and a missing field
      is looked up as the empty tag, like any other key. */
  lemma MissingFieldsLookUpEmptyTag(mapping: Mapping, data: ToneJson)
    ensures ResolveKeywords(mapping, ReadProfile(data))
            == var matched := Contribution(mapping, if "emotion" in data then data["emotion"] else "")
                              + Contribution(mapping, if "tone" in data then data["tone"] else "")
                              + Contribution(mapping, if "intent" in data then data["intent"] else "");
               if matched == [] then [Fallback] else matched
  {
    ResolvedKeywords(mapping, ReadProfile(data));
  }

  // Properties of the merge and of the final result

  /** Each keyword contributes at most three images. */
  lemma MergedBound(search: Search, keywords: seq<Keyword>)
    requires CapsResults(search)
    ensures |Merged(search, keywords)| <= MaxResults * |keywords|
  {
    FlatMapBound(search, keywords, MaxResults);
  }

  /** Keyword order is kept: the images of earlier keywords come first. */
  lemma MergedInKeywordOrder(search: Search, first: seq<Keyword>, rest: seq<Keyword>)
    ensures Merged(search, first + rest) == Merged(search, first) + Merged(search, rest)
  {
    FlatMapAppend(search, first, rest);
  }

  /** An image is merged exactly when some keyword's search returned it. */
  lemma MergedMember(search: Search, keywords: seq<Keyword>, c: Candidate)
    ensures c in Merged(search, keywords) <==> exists i :: 0 <= i < |keywords| && c in search(keywords[i])
  {
    FlatMapMember(search, keywords, c);
  }

  /** The apology is returned exactly when every searched keyword found
      nothing. */
  lemma NoMatchExactly(mapping: Mapping, search: Search, data: ToneJson)
    ensures var keywords := ResolveKeywords(mapping, ReadProfile(data));
            RecommendFor(mapping, search, data) == NoMatch(Apology)
            <==> forall i :: 0 <= i < |keywords| ==> search(keywords[i]) == []
  {
    FlatMapEmpty(search, ResolveKeywords(mapping, ReadProfile(data)));
  }

  /** Otherwise the first min(3, n) of the n merged images are returned, and
      the first of them is the best image of the first keyword that found
      any. */
  lemma ImagesReturned(mapping: Mapping, search: Search, data: ToneJson) returns (j: nat)
    requires RecommendFor(mapping, search, data).Images?
    ensures var keywords := ResolveKeywords(mapping, ReadProfile(data));
            var results := Merged(search, keywords);
            var images := RecommendFor(mapping, search, data).images;
            && |images| == (if |results| < MaxResults then |results| else MaxResults)
            && 0 < |images| <= MaxResults
            && images == results[..|images|]
            && j < |keywords|
            && (forall i :: 0 <= i < j ==> search(keywords[i]) == [])
            && search(keywords[j]) != []
            && images[0] == search(keywords[j])[0]
  {
    var keywords := ResolveKeywords(mapping, ReadProfile(data));
    j := FlatMapFirst(search, keywords);
  }

  /** Every returned image was found by the search for some keyword. */
  lemma ImagesFound(mapping: Mapping, search: Search, data: ToneJson, c: Candidate)
    requires RecommendFor(mapping, search, data).Images?
    requires c in RecommendFor(mapping, search, data).images
    ensures var keywords := ResolveKeywords(mapping, ReadProfile(data));
            exists i :: 0 <= i < |keywords| && c in search(keywords[i])
  {
    var keywords := ResolveKeywords(mapping, ReadProfile(data));
    FlatMapMember(search, keywords, c);
  }

  // Worked examples

  /** Emotion "angry" with mapping {"angry": ["annoyed", "rage"]} searches
      both keywords, in table order; the empty tone and intent add nothing. */
  lemma AngryExample()
    ensures ResolveKeywords(map["angry" := ["annoyed", "rage"]],
                            ReadProfile(map["emotion" := "angry", "tone" := "", "intent" := ""]))
         == ["annoyed", "rage"]
  {
    var mapping := map["angry" := ["annoyed", "rage"]];
    ResolvedKeywords(mapping, Profile("angry", "", ""));
  }
}
