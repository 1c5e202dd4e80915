# MyGO reaction-image recommender, modelled in Dafny

This project models `recommend_mygo_image` from `mygo/recommend_mygo_image.py`.
The function takes the chat text, asks the tone classifier for a JSON reply and
parses it; the model starts from the parsed reply. The function reads the
`emotion`, `tone` and `intent` tags from that reply and looks each one up in
the tag → keyword mapping (`mapping_mygo.json`), in that order. When no keyword
comes out of the lookups it uses the fallback keyword `笑`. It then runs the fuzzy
image search for every keyword and concatenates the results. It returns the
apology `找不到適合的表情包QQ` when nothing was found, and the first three images
otherwise.

Layout:

- `sequences.dfy`, module `Sequences`: `FlatMap`, which concatenates the lists
  that a function gives for each element of a list. Both loops of the recommender
  build their list this way with `list.extend`. The module also holds the lemmas
  about order, emptiness, membership, size and first element.
- `recommend.dfy`, module `RecommendMygoImage`: the data model (`Profile`,
  `Recommendation`, `Mapping`, `Search`), the specification functions
  (`ReadProfile`, `ResolveKeywords`, `Merged`, `RecommendFor`), the two loops as
  methods (`CollectKeywords`, `MergeResults`) proved equal to those functions, the
  method `Recommend` that chains them, and the lemmas.

Two points where the code differs from what one might expect of a recommender:

- The keyword list is not an ordered set. The code uses plain `extend` (line 23),
  so a repeated tag or overlapping table entries put keywords in the list more
  than once (`RepeatedTag`, `KeywordCount`). The merged images are not
  deduplicated either (line 33).
- The classifier is asked for a `confidence` field as well, but the code never
  reads it, so `Profile` has only the three tags.

## Model

| member | source | states |
|---|---|---|
| `RecommendMygoImage.ReadProfile` | mygo/recommend_mygo_image.py:14-16 | each of the three tags is the reply's field of that name, or `""` when the field is missing |
| `RecommendMygoImage.ResolveKeywords` | mygo/recommend_mygo_image.py:25-26 | the keyword list that is searched is never empty |
| `RecommendMygoImage.Take` | mygo/recommend_mygo_image.py:40 | Python's `s[:n]`: a prefix of `s` whose length is the smaller of `n` and the length of `s` |
| `RecommendMygoImage.CollectKeywords` | mygo/recommend_mygo_image.py:18-26 | the lookup loop, with its `if key in mapping` guard and the fallback, yields exactly `ResolveKeywords`; its invariant is that the list so far is the concatenation of the entries of the tags seen so far |
| `RecommendMygoImage.MergeResults` | mygo/recommend_mygo_image.py:29-33 | the search loop, with its `if images` guard, yields exactly the concatenation of the per-keyword results in keyword order; since the search always returns a list, skipping an empty one changes nothing |
| `RecommendMygoImage.Recommend` | mygo/recommend_mygo_image.py:9-40 | the whole function equals `RecommendFor`: the apology string, or between one and three images |
| `RecommendMygoImage.MatchedInOrder` | mygo/recommend_mygo_image.py:18-23 | the matched keywords are exactly the emotion entry, then the tone entry, then the intent entry; a tag that is not a key adds nothing |
| `RecommendMygoImage.ResolvedKeywords` | mygo/recommend_mygo_image.py:18-26 | the searched keywords are that concatenation when it is non-empty, and `["笑"]` otherwise |
| `RecommendMygoImage.NoTagMatches` | mygo/recommend_mygo_image.py:21-26 | when no tag is a key of the mapping, the keyword list is exactly `["笑"]` |
| `RecommendMygoImage.AllEntriesEmpty` | mygo/recommend_mygo_image.py:21-26 | when every tag that is a key maps to an empty list, the keyword list is exactly `["笑"]` |
| `RecommendMygoImage.KeywordCount` | mygo/recommend_mygo_image.py:21-23 | no deduplication: when some tag matched, the number of keywords is the sum of the three entries' lengths |
| `RecommendMygoImage.RepeatedTag` | mygo/recommend_mygo_image.py:21-23 | a tag given as both emotion and tone adds its entry twice, in position |
| `RecommendMygoImage.MissingFieldsLookUpEmptyTag` | mygo/recommend_mygo_image.py:14-23 | for any reply, each field is looked up as it stands and each missing field (emotion, tone or intent, alone or together) is looked up as the key `""`, like any other tag |
| `RecommendMygoImage.AngryExample` | mygo/recommend_mygo_image.py:18-26 | with mapping `{"angry": ["annoyed", "rage"]}` and emotion `angry`, the keywords are `["annoyed", "rage"]` |
| `RecommendMygoImage.MergedBound` | mygo/recommend_mygo_image.py:29-33 | when the search returns at most `max_results=3` images per keyword, the merged list has at most three per keyword |
| `RecommendMygoImage.MergedInKeywordOrder` | mygo/recommend_mygo_image.py:29-33 | `Sequences.FlatMapAppend` applied to the search: the images of earlier keywords come before those of later keywords |
| `RecommendMygoImage.MergedMember` | mygo/recommend_mygo_image.py:29-33 | `Sequences.FlatMapMember` applied to the search: an image is in the merged list exactly when the search for some keyword returned it |
| `RecommendMygoImage.NoMatchExactly` | mygo/recommend_mygo_image.py:29-37 | the apology is returned exactly when the search found nothing for every keyword |
| `RecommendMygoImage.ImagesReturned` | mygo/recommend_mygo_image.py:36-40 | otherwise the result is the first `min(3, n)` of the `n` merged images, non-empty and at most three, and its first image is the best image of the first keyword that found any |
| `RecommendMygoImage.ImagesFound` | mygo/recommend_mygo_image.py:29-40 | every returned image was returned by the search for one of the keywords |
| `Sequences.FlatMapStep` | mygo/recommend_mygo_image.py:21-23 | one more loop iteration appends exactly the current element's list |
| `Sequences.FlatMapAppend` | mygo/recommend_mygo_image.py:30-33 | concatenation keeps order: the lists of a prefix come before those of the rest |
| `Sequences.FlatMapEmpty` | mygo/recommend_mygo_image.py:25 | the concatenation is empty exactly when every element's list is empty |
| `Sequences.FlatMapMember` | mygo/recommend_mygo_image.py:33 | an element is in the concatenation exactly when it is in some element's list |
| `Sequences.FlatMapBound` | mygo/recommend_mygo_image.py:31 | with at most `k` per element's list, the concatenation has at most `k` per element |
| `Sequences.FlatMapFirst` | mygo/recommend_mygo_image.py:40 | the first element of a non-empty concatenation is the first element of the first non-empty list |

## Left out

- Loading `mapping_mygo.json` when the module is imported (lines 6-7) is file I/O. The mapping is a parameter of type `map<string, seq<string>>`.
- `analyze_tone` (mygo/sentiment_analysis.py) calls a hosted language model over the network. It is not modelled, and neither is the prompt it builds.
- `json.loads` of the reply (line 12) is a foreign parser. The model starts from the parsed object, a `map<string, string>`. A malformed reply raises in the parser, which is outside the model. A field whose value is not a string (a number or a list) is not modelled either.
- `find_images_by_text` (imported at line 3) is not part of this model. It is the parameter `search`, a total function from keyword to an ordered list of candidates. Its `max_results=3` cap is the predicate `CapsResults`, and only `MergedBound` relies on it.
- `find_images_by_text` returning `None` for no hit is modelled as returning `[]`. If it does return `None`, the `if images:` guard at line 32 is what keeps `extend` from raising; in the model the guard only skips an empty list.
- The model does not show that the search is called once per keyword, in keyword order. Calls are not observable on a pure `search` function. Only the resulting concatenation is modelled.
- AI_response/test_gemini.py is a connectivity script.
- The image preprocessing and OCR in image_recognition/ocr_processor.py come before the recommender and are not part of this model.
