# Behance and Pinterest scraper, modelled in Dafny

This project models the core of a Python scraper that collects Behance
projects, users and images and Pinterest boards and pins.

It covers:

- the pydantic records for projects, users and images, with their
  validators and their conversions to and from MongoDB documents;
- the three MongoDB repositories, over an in-memory model of a collection
  (`insert_one`, `insert_many`, `find`, `find_one`, `update_one` with and
  without upsert, `delete_one`, `count_documents`);
- the image download pipeline;
- the HTML and JSON extractors for search pages, project pages, images,
  user profiles and Pinterest boards and pins;
- the Pinterest login flows and the human-behaviour generator;
- the two scraping scripts, the cron job that runs both, and the Google
  Drive uploader.

The browser, the network, the file system and Google Drive are not run.
What the program would observe from them is a parameter:

- a record of what a page holds;
- an outcome per attempt (loaded or raised; a timeout is a raise);
- an oracle function for hashes and random draws.

Where a function is pure, the model is a Dafny function with lemmas about
it. Where the source updates an object step by step, the model is a
`class` whose methods carry `modifies` clauses, and whose loops carry
invariants. Each such method is tied to a specification function on which
the properties are proved.

One Dafny module stands for each source file. Shared pieces get their own
modules:

- `Wrappers`: Option and Result.
- `Text`: the Python string operations used, on Latin-1 characters.
- `Documents`: Python dicts as MongoDB documents.
- `Collection`: MongoDB collection semantics.
- `MongoStore`: the databases.
- `Html`: a parsed page.
- `UrlParse`: `urlparse` and `pathlib`.

## Model

| member | source | states |
|---|---|---|
| Text.Strip | src/extractors/pinterest.py:198 | `strip()` returns a contiguous slice of its argument that neither starts nor ends with white space, with only white space removed before and after it |
| Text.StripKeeps | scrape_pinterest_images.py:305 | `strip()` keeps only characters of its argument |
| Text.StripOfTrimmed | scrape_pinterest_images.py:305 | a string without surrounding white space is left as it is |
| Text.Filter | scrape_pinterest_images.py:305 | the filtered string keeps only characters of its argument that pass the test |
| Text.FilterOfKept | scrape_pinterest_images.py:305 | filtering a string whose characters all pass changes nothing |
| Text.PyTake | src/extractors/pinterest.py:259 | `s[:n]` is a prefix of `s` of length `n` clamped to `|s|`, and for a negative `n` drops the last `-n` elements |
| Text.FirstDigitRun | src/extractors/user.py:69 | the first maximal run of digits is a non-empty digit string, and there is none exactly when the text has no digit |
| Text.PyInt | src/extractors/image.py:60-61 | `int(s)` of a non-empty digit string is its decimal value |
| Text.IntToStringRoundTrip | src/extractors/image.py:60-61 | `int(str(i)) == i` for every integer |
| Documents.FieldInt | src/models/project.py:19 | an `int` field validates exactly when the key is present with an integer, and yields that integer |
| Documents.FieldStr | src/models/project.py:20-21 | a `str` field validates exactly when present with a string, and yields it |
| Documents.FieldOptStr | src/models/user.py:24-26 | an `Optional[str]` field accepts absence, `None` or a string, and is `None` exactly when absent or `None` |
| Documents.FieldTime | src/models/project.py:23-25 | a `datetime` field validates exactly when present with a timestamp |
| Documents.FieldUrl | src/models/project.py:22 | an `HttpUrl` field accepts a URL object or its string, exactly when it is an http(s) URL |
| Documents.ParseStrList | src/models/project.py:27 | a `list[str]` value validates exactly when every item is a string, and then is the dump of the result |
| Documents.ParseStrDict | src/models/project.py:28 | a `dict[str, str]` value validates exactly when every value is a string, and then is the dump of the result |
| Documents.StrListRoundTrip | src/models/project.py:27 | a dumped string list validates back to itself |
| Documents.StrDictRoundTrip | src/models/project.py:28 | a dumped string dict validates back to itself |
| Documents.MapMongoId | src/models/project.py:55-56 | `_id` is copied to `id` only when `id` is absent; every existing key keeps its value |
| Documents.MapMongoIdIdempotent | src/models/project.py:55-56 | applying the `_id` mapping twice is the same as once |
| ProjectModel.FirstIndex | src/models/project.py:34-42 | the first position of a tag, which is `len(v)` exactly when the tag is absent |
| ProjectModel.DeduplicateTags | src/models/project.py:34-42 | the `seen`-set loop returns the order-preserving de-duplication `Dedup(v)` |
| ProjectModel.DedupDistinct | src/models/project.py:35 | no tag occurs twice in the validator's result |
| ProjectModel.DedupSameTags | src/models/project.py:35 | a tag is in the result if and only if it is in the input |
| ProjectModel.DedupFirstOccurrenceOrder | src/models/project.py:35-41 | the result keeps tags in the order of their first occurrence |
| ProjectModel.DedupOfDistinct | src/models/project.py:38-41 | a list without repeats passes through unchanged |
| ProjectModel.DedupIdempotent | src/models/project.py:34-42 | running the validator on its own output changes nothing |
| ProjectModel.ToMongoDict | src/models/project.py:44-49 | the document has the dump's keys, the `url` as a string, and every other field as dumped |
| ProjectModel.ParseStats | src/models/project.py:8-13 | parsed stats always satisfy `ge=0` on all three counters |
| ProjectModel.StatsConstraint | src/models/project.py:11-13 | a stats record validates if and only if no counter is negative |
| ProjectModel.ParseProject | src/models/project.py:16-30 | a validated project is valid, and each field comes from the document's key; `tags` and `covers` default to empty and tags are de-duplicated |
| ProjectModel.NewProject | src/models/project.py:16-42 | construction succeeds if and only if the stats are non-negative and the url is http(s), and keeps every argument except the de-duplicated tags |
| ProjectModel.ParseRepresented | src/models/project.py:52-57 | a document holding a valid project's fields validates to that project |
| ProjectModel.MongoDictRepresents | src/models/project.py:44-49 | `to_mongo_dict` writes every field of the project |
| ProjectModel.OverlayRepresents | src/storage/project_repository.py:127-131 | a `$set` of a project's fields over any document holds that project's fields |
| ProjectModel.ExtraKeyRepresents | src/models/project.py:54-56 | adding `_id` does not disturb the fields |
| ProjectModel.ParseOverlay | src/storage/project_repository.py:127-131 | a document `$set` with a project's fields reads back as that project, whatever it held before |
| ProjectModel.MongoRoundTrip | src/models/project.py:44-57 | `from_mongo_dict(to_mongo_dict(p))` is `p`, with or without the `_id` MongoDB adds |
| ProjectModel.FromMongoDict | src/models/project.py:51-57 | the caller's dict gets `_id` mapped to `id` in place, and the result is the validation of the mapped dict |
| ProjectModel.FromMongoId | src/models/project.py:55-56 | a document with `id` reads the same with or without `_id`; one with only `_id` reads it as the id |
| UserModel.ValidateSocialLinks | src/models/user.py:32-38 | the list is accepted unchanged if and only if every link starts with `http://` or `https://`; otherwise the error names the first bad link |
| UserModel.ToMongoDict | src/models/user.py:40-45 | the document has the dump's keys, the `url` as a string, and every other field as dumped |
| UserModel.ParseStats | src/models/user.py:7-14 | parsed stats satisfy `ge=0` on all five counters |
| UserModel.StatsConstraint | src/models/user.py:10-14 | a stats record validates if and only if no counter is negative |
| UserModel.FieldStrList | src/models/user.py:28-29 | a defaulted list field is empty when absent, and is the dumped list otherwise |
| UserModel.ParseUser | src/models/user.py:17-38 | a validated user is valid, and each field comes from the document's key; the list fields default to empty |
| UserModel.NewUser | src/models/user.py:17-38 | construction succeeds if and only if the stats are non-negative, the url is http(s) and every social link is http(s) |
| UserModel.SocialLinksDecide | src/models/user.py:32-38 | an otherwise well-formed user document is rejected exactly when a social link lacks an http(s) scheme |
| UserModel.ParseRepresented | src/models/user.py:47-53 | a document holding a valid user's fields validates to that user |
| UserModel.MongoDictRepresents | src/models/user.py:40-45 | `to_mongo_dict` writes every field of the user |
| UserModel.ExtraKeyRepresents | src/models/user.py:51-53 | adding `_id` does not disturb the fields |
| UserModel.MongoRoundTrip | src/models/user.py:40-53 | `from_mongo_dict(to_mongo_dict(u))` is `u`, with or without `_id` |
| UserModel.FromMongoDict | src/models/user.py:47-53 | the caller's dict gets `_id` mapped to `id` in place, and the result is the validation of the mapped dict |
| ImageModel.LowerIsLowerCase | src/models/image.py:22-24 | `lower()` yields a lower-case string and is idempotent |
| ImageModel.ValidFormatsLowerCase | src/models/image.py:21 | every whitelisted format is lower case |
| ImageModel.ValidateFormat | src/models/image.py:17-24 | a format is accepted if and only if its lower-cased form is whitelisted, and is stored lower-cased |
| ImageModel.ValidateFormatIdempotent | src/models/image.py:17-24 | validating an accepted format again gives the same value |
| ImageModel.MakeImage | src/models/image.py:7-24 | construction succeeds if and only if the url is http(s), both dimensions are positive and the format validates |
| ImageModel.SizeAndProjectUnconstrained | src/models/image.py:13-15 | neither `size` nor `project_id` affects validation |
| ImageModel.MongoDict | src/storage/image_repository.py:49-51 | the stored document has the dump's keys, the `url` as a string, and every other field as dumped |
| ImageModel.ParseImage | src/storage/image_repository.py:67 | a validated image is valid and carries the document's `project_id` |
| ImageModel.ParseRepresented | src/storage/image_repository.py:67 | a document holding a valid image's fields validates to that image |
| ImageModel.MongoRoundTrip | src/storage/image_repository.py:49-67 | a stored image reads back as itself, whatever extra keys the document carries |
| Collection.FirstMatch | src/storage/project_repository.py:65 | the index of the first document matching an equality filter, with none before it, or none at all |
| Collection.FindOne | src/storage/project_repository.py:65 | `find_one` returns a matching stored document, and nothing exactly when none matches |
| Collection.ParseEach | src/storage/project_repository.py:106 | validating a list succeeds if and only if every document validates, giving one record per document |
| Collection.CountMatchesAppend | src/storage/project_repository.py:115 | the number of matches in a concatenation is the sum |
| Collection.SetKeepsMatch | src/storage/project_repository.py:80-83 | a `$set` that agrees with the filter keeps a matching document matching |
| Collection.UpsertCount | src/storage/project_repository.py:127-131 | after an upsert one document matches if none did, otherwise as many as before |
| Collection.UpsertShape | src/storage/project_repository.py:127-131 | an upsert with a new key appends one matching document; with an existing key it adds none and changes only matching documents |
| Collection.UpsertIdempotent | src/storage/project_repository.py:127-131 | repeating an upsert changes nothing |
| Collection.InsertTwiceDuplicates | src/storage/project_repository.py:52 | inserting a document twice leaves two more matches |
| Collection.UpdateOneEffect | src/storage/project_repository.py:80-83 | `update_one` is a no-op when nothing matches; otherwise only the first match changes, by taking the `$set` fields |
| Collection.DeleteOneEffect | src/storage/project_repository.py:92 | `delete_one` is a no-op without a match; otherwise it removes exactly the first match and keeps the rest in order |
| Collection.FindExactly | src/storage/project_repository.py:104-105 | `find` returns exactly the matching documents, as many as match |
| Collection.FindAppend | src/storage/image_repository.py:65-66 | `find` keeps stored order: an appended document extends the result at the end if it matches |
| Collection.FindInsertMany | src/storage/image_repository.py:84 | inserting matching documents extends `find` by exactly those documents, in order |
| Collection.InsertManyAgain | src/storage/image_repository.py:84 | inserting the same batch again adds each of its documents once more |
| MongoStore.SelectCollection | src/storage/project_repository.py:28-37 | a repository's collection has the requested name, in `test_behance_crawler` for a raw Motor client and in the configured database otherwise |
| MongoStore.Store.Put | src/storage/mongo_client.py:47-57 | writing a collection changes that collection alone |
| ProjectRepository.ParseAll | src/storage/project_repository.py:106 | the list validates if and only if every document validates |
| ProjectRepository.FindByIdIn | src/storage/project_repository.py:55-68 | a found project has the requested id; no document with the id gives `None` |
| ProjectRepository.FindByOwnerIn | src/storage/project_repository.py:94-106 | one project per stored document of the owner, each with that owner |
| ProjectRepository.DictMatchesId | src/storage/project_repository.py:124-129 | the stored document matches and agrees with its own id filter |
| ProjectRepository.SaveTwiceDuplicates | src/storage/project_repository.py:39-53 | saving a project twice leaves two more documents with its id |
| ProjectRepository.UpsertConverges | src/storage/project_repository.py:117-131 | after an upsert exactly one document has the id if none had; repeating it changes nothing |
| ProjectRepository.UpsertThenFind | src/storage/project_repository.py:117-131 | after an upsert, `find_by_id` returns the project |
| ProjectRepository.FoundAt | src/storage/project_repository.py:65-67 | the first document with the id, once validated, is what `find_by_id` returns |
| ProjectRepository.UpdateMissingIsNoop | src/storage/project_repository.py:70-83 | `update` of an id no document has changes nothing |
| ProjectRepository.UpdateThenFind | src/storage/project_repository.py:70-83 | after `update` of a stored id, `find_by_id` returns the given project |
| ProjectRepository.ProjectRepository.constructor | src/storage/project_repository.py:13-20 | starts with no collection chosen |
| ProjectRepository.ProjectRepository.GetCollection | src/storage/project_repository.py:22-37 | chooses the collection on first use and then reuses it |
| ProjectRepository.ProjectRepository.Save | src/storage/project_repository.py:39-53 | appends the project's document to the projects collection and returns the project |
| ProjectRepository.ProjectRepository.FindById | src/storage/project_repository.py:55-68 | returns `FindByIdIn` of the stored documents |
| ProjectRepository.ProjectRepository.Update | src/storage/project_repository.py:70-83 | the collection becomes `update_one` by id with the project's document |
| ProjectRepository.ProjectRepository.Delete | src/storage/project_repository.py:85-92 | the collection becomes `delete_one` by id |
| ProjectRepository.ProjectRepository.FindByOwner | src/storage/project_repository.py:94-106 | returns `FindByOwnerIn` of the stored documents |
| ProjectRepository.ProjectRepository.Count | src/storage/project_repository.py:108-115 | returns the number of stored projects |
| ProjectRepository.ProjectRepository.Upsert | src/storage/project_repository.py:117-131 | the collection becomes the upsert by id with the project's document |
| ImageRepository.MongoDicts | src/storage/image_repository.py:77-82 | one document per image, in input order |
| ImageRepository.ParseAll | src/storage/image_repository.py:67 | the list validates if and only if every document validates |
| ImageRepository.FindByProjectIn | src/storage/image_repository.py:55-67 | one image per stored document of the project, each with that project id |
| ImageRepository.SaveManyThenFind | src/storage/image_repository.py:69-84 | saved images of one project are found after what was there, in order |
| ImageRepository.SaveManyTwiceDuplicates | src/storage/image_repository.py:69-84 | saving the same images twice stores every document again |
| ImageRepository.ImageRepository.constructor | src/storage/image_repository.py:13-20 | starts with no collection chosen |
| ImageRepository.ImageRepository.GetCollection | src/storage/image_repository.py:22-37 | chooses the collection on first use and then reuses it |
| ImageRepository.ImageRepository.Save | src/storage/image_repository.py:39-53 | appends exactly the image's document |
| ImageRepository.ImageRepository.FindByProject | src/storage/image_repository.py:55-67 | returns `FindByProjectIn` of the stored documents |
| ImageRepository.ImageRepository.SaveMany | src/storage/image_repository.py:69-84 | the loop builds one document per image and appends them all in order |
| UserRepository.FindByUsernameIn | src/storage/user_repository.py:54-67 | a found user has the username; `None` exactly when no document has it |
| UserRepository.UpdateStatsEffect | src/storage/user_repository.py:69-80 | no-op for an unknown id; otherwise only the `stats` field of the first document with the id changes |
| UserRepository.SaveThenFind | src/storage/user_repository.py:38-67 | a saved user is found by username when no earlier document has that username |
| UserRepository.SavedFound | src/storage/user_repository.py:64-66 | an appended document that holds the user is what `find_by_username` returns |
| UserRepository.FoundAt | src/storage/user_repository.py:64-66 | the first document with the username, once validated, is what `find_by_username` returns |
| UserRepository.UserRepository.constructor | src/storage/user_repository.py:13-20 | starts with no collection chosen |
| UserRepository.UserRepository.GetCollection | src/storage/user_repository.py:22-36 | chooses the collection on first use, by whether the client has a `database_name`, and then reuses it |
| UserRepository.UserRepository.Save | src/storage/user_repository.py:38-52 | appends exactly the user's document |
| UserRepository.UserRepository.FindByUsername | src/storage/user_repository.py:54-67 | returns `FindByUsernameIn` of the stored documents |
| UserRepository.UserRepository.UpdateStats | src/storage/user_repository.py:69-80 | the collection becomes the `$set` of `stats` on the first document with the id |
| Html.Or | src/extractors/image.py:48 | Python's `a or b`: the result is truthy exactly when either side is, and is `a` when `a` is truthy |
| Html.FirstNonBlankText | src/extractors/project.py:43-47 | the stripped text of the first selector with non-blank text, and none exactly when every selector is blank |
| Html.FirstNonBlankSkips | src/extractors/project.py:43-47 | selectors with blank elements are passed over |
| Html.FirstNonBlankIsFirst | src/extractors/project.py:43-47 | the chain yields the first non-blank selector's stripped text, whatever later selectors hold |
| Html.FindNonBlank | src/extractors/project.py:43-47 | the selector loop with its `break` returns `FirstNonBlankText` |
| Html.FirstPresent | src/extractors/pinterest.py:136-144 | the element of the first selector that matched, and none exactly when none matched |
| Html.FirstPresentIsFirst | src/extractors/pinterest.py:136-144 | the `if not elem` chain yields the first selector that matched, whatever later selectors match |
| ImagePipeline.Extension | src/storage/image_pipeline.py:113-115 | the extension is always a dot followed by a non-empty, dot-free suffix (`.jpg` by default) |
| ImagePipeline.GenerateFilename | src/storage/image_pipeline.py:97-121 | succeeds exactly when `urlparse` does; the name is the digest of the whole URL followed by an extension |
| ImagePipeline.FilenameIgnoresQuery | src/storage/image_pipeline.py:109-119 | a query string changes the digest but never the extension |
| ImagePipeline.DefaultExtension | src/storage/image_pipeline.py:114-115 | a path whose last segment has no suffix gets `.jpg` |
| ImagePipeline.SegmentsKept | src/storage/image_pipeline.py:49 | the parts `Path` keeps are non-empty, never `.` and hold no `/` |
| ImagePipeline.JoinPathProperties | src/storage/image_pipeline.py:49 | `str(Path(dir) / name)`: a relative name is appended to the directory's parts under the directory's root, an absolute name replaces the directory, and the result is already normal (`str(Path(r)) == r`) |
| ImagePipeline.JoinPathDropsDot | scripts/scrape_behance.py:192 | `Path("./behance_images") / "42"` is `behance_images/42`: the leading `.` is dropped |
| ImagePipeline.Ancestors | src/storage/image_pipeline.py:129 | the directories `mkdir(parents=True)` creates are non-empty prefixes of the path |
| ImagePipeline.EnsureDir | src/storage/image_pipeline.py:123-129 | succeeds exactly when no file stands where a directory must be; then it adds the directory and its parents and no file |
| ImagePipeline.DownloadStep | src/storage/image_pipeline.py:34-78 | a result carries its URL; it has a local path exactly when it succeeded, and an error message exactly when it failed |
| ImagePipeline.FetchStep | src/storage/image_pipeline.py:48-70 | a failure leaves the file system alone; a success means a 2xx response whose body is written under the generated name |
| ImagePipeline.SaveStep | src/storage/image_pipeline.py:54-70 | the write succeeds exactly for a 2xx response to a path that is not a directory, and then stores the body there |
| ImagePipeline.DownloadStepEffect | src/storage/image_pipeline.py:34-78 | a failed download writes no file; a successful one made the directory and its parents and wrote the body under the URL's name |
| ImagePipeline.DownloadSucceedsIff | src/storage/image_pipeline.py:34-78 | a download succeeds if and only if the directory can be made, the URL parses, the answer is 2xx and the target is not a directory |
| ImagePipeline.DownloadAll | src/storage/image_pipeline.py:80-95 | one result per URL |
| ImagePipeline.DownloadAllResult | src/storage/image_pipeline.py:89-95 | result `i` is the download of `urls[i]` on the file system the earlier downloads left |
| ImagePipeline.ImagePipeline.EnsureOutputDir | src/storage/image_pipeline.py:123-129 | the file system becomes `EnsureDir` of the output directory, or is unchanged on failure |
| ImagePipeline.ImagePipeline.DownloadImage | src/storage/image_pipeline.py:34-78 | the new file system and the result are `DownloadStep` |
| ImagePipeline.ImagePipeline.FetchImage | src/storage/image_pipeline.py:47-70 | the new file system and the result are `FetchStep` |
| ImagePipeline.ImagePipeline.SaveResponse | src/storage/image_pipeline.py:54-70 | the new file system and the result are `SaveStep` |
| ImagePipeline.ImagePipeline.DownloadMany | src/storage/image_pipeline.py:80-95 | the loop's file system and results are `DownloadAll` |
| UrlParse.SplitNetloc | src/storage/image_pipeline.py:109-110 | the authority and the rest make up the text after `//` |
| UrlParse.DropParams | src/storage/image_pipeline.py:109-110 | the path without `;params` is a prefix of the path |
| UrlParse.SplitAuthority | src/storage/image_pipeline.py:109-110 | what follows the authority is a suffix of the text |
| UrlParse.PathName | src/storage/image_pipeline.py:113 | `PurePosixPath.name` holds no slash |
| UrlParse.Suffix | src/storage/image_pipeline.py:113 | `PurePath.suffix` is empty or a dot with at least one further character and no other dot, and ends the name |
| UrlParse.SanitizeQuery | src/storage/image_pipeline.py:109 | sanitising a URL with a query sanitises the base and the query apart |
| UrlParse.SplitSchemeQuery | src/storage/image_pipeline.py:109 | a query does not change the scheme split |
| UrlParse.SplitNetlocQuery | src/storage/image_pipeline.py:109 | a query does not change the authority |
| UrlParse.SplitAuthorityQuery | src/storage/image_pipeline.py:109 | a query does not change the authority split |
| UrlParse.PathPartQuery | src/storage/image_pipeline.py:110 | a query does not change the path |
| UrlParse.UrlPathIgnoresQuery | src/storage/image_pipeline.py:109-110 | the path `urlparse` finds does not depend on the query string |
| ProjectExtractor.GallerySearch | src/extractors/project.py:33 | the leftmost position at or after `i` where `/gallery/(\d+)/([^/?]+)` matches, with no match before it, or none at all |
| ProjectExtractor.GalleryId | src/extractors/project.py:33-34 | there is no gallery id exactly when the pattern matches nowhere |
| ProjectExtractor.ProjectId | src/extractors/project.py:34 | the gallery id when there is one, otherwise `hash(url) % 10**8`, which lies in `[0, 10**8)` |
| ProjectExtractor.GalleryAtHostEnd | src/extractors/project.py:33 | `host/gallery/<id>/<slug>` matches at the end of the host, and the group is the id |
| ProjectExtractor.NoGalleryInHost | src/extractors/project.py:33 | nothing matches inside a host with no `/g` |
| ProjectExtractor.CanonicalGalleryId | src/extractors/project.py:30-34 | `https://www.behance.net/gallery/<id>/<slug>` yields `<id>` |
| ProjectExtractor.TitleNotEmpty | src/extractors/project.py:37-47 | a project title is never empty |
| ProjectExtractor.OwnerIsOneLine | src/extractors/project.py:63-73 | the owner is a non-empty single line |
| ProjectExtractor.StrippedTexts | src/extractors/project.py:191 | one stripped text per tag element |
| ProjectExtractor.TagTextsSound | src/extractors/project.py:187-195 | every tag is a non-blank stripped text of some tag element, and there are no more tags than elements |
| ProjectExtractor.TagTextsComplete | src/extractors/project.py:187-195 | every non-blank stripped tag text is a tag |
| ProjectExtractor.TagTextsStep | src/extractors/project.py:190-193 | one turn of the tag loop appends the stripped text exactly when it is non-blank |
| ProjectExtractor.ExtractTags | src/extractors/project.py:174-195 | the loop returns the non-blank stripped tag texts in document order |
| ProjectExtractor.RunEnd | src/extractors/project.py:222 | the end of a greedy character run: every character up to it belongs to the run |
| ProjectExtractor.GroupEnd | src/extractors/project.py:227-232 | the greedy number group is non-empty and holds only the characters the pattern allows |
| ProjectExtractor.MatchSearch | src/extractors/project.py:227-237 | the leftmost match at or after `i`, with no match before it, or none at all |
| ProjectExtractor.Search | src/extractors/project.py:227-237 | `re.search(...).group(1)` is none exactly when nothing matches; otherwise it is a non-empty run of allowed characters from the text |
| ProjectExtractor.RunValue | src/extractors/project.py:229 | `int(g.replace(',', ''))` succeeds if and only if the run holds a digit |
| ProjectExtractor.CommaFreeDigits | src/extractors/project.py:229 | dropping the commas leaves only digits, and nothing exactly when the run has no digit |
| ProjectExtractor.KeywordCount | src/extractors/project.py:225-239 | agrees with the keyword count as written wherever that one does not raise |
| ProjectExtractor.NumberRuns | src/extractors/project.py:246 | `re.findall(r'[\d,]+')` yields non-empty runs of digits and commas |
| ProjectExtractor.FirstNumber | src/extractors/project.py:247 | the value of the first run when it holds a digit |
| ProjectExtractor.Fallback | src/extractors/project.py:242-261 | agrees with the fallback as written wherever that one does not raise |
| ProjectExtractor.ExtractStatsAsWritten | src/extractors/project.py:197-267 | a result of `extract_stats` as written always satisfies the stats constraints |
| ProjectExtractor.ExtractStats | src/extractors/project.py:197-267 | never raises; each count is the stats block's when that is non-zero, and the fallback element's when the block's is zero |
| ProjectExtractor.FallbackOnlyForZero | src/extractors/project.py:242-261 | without fallback elements the counts are those of the stats block |
| ProjectExtractor.CorrectionAgrees | src/extractors/project.py:197-267 | the corrected `extract_stats` agrees with the one as written wherever that one does not raise |
| ProjectExtractor.LeadingMatch | src/extractors/project.py:227 | a run of digits and commas, optional spaces and the keyword match at the start, and the group is the whole run |
| ProjectExtractor.LeadingCount | src/extractors/project.py:225-229 | in lower-case text, the run in front of the keyword is the number read |
| ProjectExtractor.CommaOnlyCount | src/extractors/project.py:227-229 | a run of commas alone before `appreciation` makes `int('')` raise |
| ProjectExtractor.CommasValue | src/extractors/project.py:229 | a run of commas alone has no value |
| ProjectExtractor.CommaOnlyRaises | src/extractors/project.py:225-229 | a stats block starting with commas before `appreciations` makes `extract_stats` as written raise |
| ProjectExtractor.CommaOnlyCorrected | src/extractors/project.py:225-229 | with the correction that block gives 0 appreciations |
| ProjectExtractor.LowerHasNoSuffix | src/extractors/project.py:232 | lower-cased text holds no `K`, `M` or `B` |
| ProjectExtractor.SuffixNeverRead | src/extractors/project.py:231-234 | as written, the views group never holds a suffix letter |
| ProjectExtractor.ViewsGroupEnd | src/extractors/project.py:232 | the corrected views group spans the run, the point, the fraction and the suffix letter |
| ProjectExtractor.LeadingViews | src/extractors/project.py:232 | a number with a fraction and a suffix in front of `view` is matched whole by the corrected pattern |
| ProjectExtractor.SuffixReadCorrected | src/extractors/project.py:231-234 | corrected, "1.7K views" gives the group "1.7k", suffix included |
| ProjectExtractor.FromPageProperties | src/extractors/project.py:17-104 | a page yields a project if and only if `extract_stats` as written does not raise and its URL without the query is http(s); a raise is passed on as it is; the project has the statistics read, a title, a one-line owner, the URL up to `?`, the id from the URL, an owner id in `[0, 10**8)`, the de-duplicated tags, no covers, the metadata reading as publication and creation time and the later reading as modification time |
| ProjectExtractor.FromPageCorrectionAgrees | src/extractors/project.py:75-104 | with the corrected `extract_stats`, every page the source reads still yields the same project but for its statistics, and the very same project where the two views patterns read the block alike |
| ProjectExtractor.CommaOnlyPage | src/extractors/project.py:76 | a page whose stats block starts with commas before `appreciations` makes `extract_from_page` as written raise `int('')`'s error, while the corrected reader yields a project exactly for an http(s) URL |
| ProjectExtractor.ExtractFromPage | src/extractors/project.py:17-104 | the selector loops, `extract_stats` as written and the tag loop return `FromPage`, raising where the statistics raise |
| ProjectExtractor.JsonTime | src/extractors/project.py:118-120 | the timestamp parses exactly when the key holds a string that `fromisoformat` accepts after `Z` becomes `+00:00` |
| ProjectExtractor.JsonStats | src/extractors/project.py:123-128 | parsed stats always satisfy the stats constraints |
| ProjectExtractor.JsonArguments | src/extractors/project.py:137-150 | the required arguments are taken from the response as they are |
| ProjectExtractor.JsonDefaults | src/extractors/project.py:123-150 | the optional keys default to an empty description, owner "unknown", no tags, no covers and zero counters |
| ProjectExtractor.JsonStatsDefault | src/extractors/project.py:123-128 | without a stats object every counter is 0 |
| ProjectExtractor.JsonOptionalArguments | src/extractors/project.py:131-147 | each optional argument is `data.get` with its default |
| ProjectExtractor.JsonRequired | src/extractors/project.py:118-141 | a project read from JSON has the response's id, owner id and title, and the parsed publication instant |
| ImageExtractor.ExtractFormat | src/extractors/image.py:180-205 | always one of jpg, png, gif, webp, svg; each answer holds exactly when its extension is in the lower-cased URL and no earlier one is, and jpg otherwise |
| ImageExtractor.ExtractFormatValidates | src/extractors/image.py:69 | whatever `extract_format` answers passes the image format validator unchanged |
| ImageExtractor.Dimension | src/extractors/image.py:60-61 | an absent attribute gives the default |
| ImageExtractor.RunErrorSticks | src/extractors/image.py:64-72 | once an element makes the extraction raise, later elements change nothing |
| ImageExtractor.RunConcat | src/extractors/image.py:44-72 | the loop over two pieces is the loop over their concatenation |
| ImageExtractor.RaiseStops | src/extractors/image.py:44-72 | an element that raises ends the whole extraction with its error |
| ImageExtractor.StepKeepsInv | src/extractors/image.py:47-72 | one element keeps the gathered images distinct by URL, non-thumbnail, valid, of the project and of size 0, with the seen set equal to their URLs |
| ImageExtractor.AppendKeepsInv | src/extractors/image.py:57-72 | appending an unseen, non-thumbnail, valid image keeps that invariant |
| ImageExtractor.PageImagesProperties | src/extractors/image.py:42-74 | no two images share a URL; none is a thumbnail; every usable non-thumbnail URL on the page is among them |
| ImageExtractor.DefaultDimensions | src/extractors/image.py:60-71 | an element without `width` and `height` yields a 1920 by 1080 image of size 0 with the guessed format |
| ImageExtractor.ScanSelection | src/extractors/image.py:47-72 | the inner loop returns the specified run over one selector's elements |
| ImageExtractor.ExtractFromPage | src/extractors/image.py:20-74 | the selector loop returns the specified run over all selectors' elements, in selector order |
| ImageExtractor.FlattenSplit | src/extractors/image.py:44-45 | the elements of all selectors split at any selector |
| ImageExtractor.Metadata | src/extractors/image.py:114-142 | `width`, `height` and `size` are copied when present and 1920, 1080 and 0 otherwise; nothing else is kept |
| ImageExtractor.ImageModules | src/extractors/image.py:88-94 | the image modules with a truthy original, in order |
| ImageExtractor.ModuleImage | src/extractors/image.py:88-110 | a module yields an image exactly when it is an image module with a string original that validates, and is skipped exactly when it is a dict that is not one |
| ImageExtractor.ProjectImagesFollowModules | src/extractors/image.py:76-112 | one image per image module, in module order, with the module's original URL and the project's id |
| ImageExtractor.ModuleImageSome | src/extractors/image.py:90-110 | a module that does not raise yields an image if and only if it is an image module |
| ImageExtractor.ParseImageUrl | src/extractors/image.py:102-103 | the image keeps the URL it was given |
| ImageExtractor.ProjectErrorSticks | src/extractors/image.py:88-110 | once a module raises, later modules change nothing |
| ImageExtractor.ExtractFromProject | src/extractors/image.py:76-112 | the module loop returns `FromProject` |
| SearchExtractor.Absolute | src/extractors/search.py:46-50 | an href starting with `/` gets the `https://www.behance.net` prefix; any other href is kept as it is |
| SearchExtractor.CollectProperties | src/extractors/search.py:37-57 | the seen set is exactly the bases of the kept links; every kept link has an accepted base of its own and comes from an element; every element's accepted base ends up seen |
| SearchExtractor.CollectPrefix | src/extractors/search.py:57 | the loop only ever appends |
| SearchExtractor.FirstOccurrenceWins | src/extractors/search.py:53-57 | the first element with a given accepted base is the one whose link is kept |
| SearchExtractor.ProjectCandidate | src/extractors/search.py:41-50 | an element has a candidate exactly when its href is non-empty, and the candidate is the absolute href |
| SearchExtractor.ProjectLinksProperties | src/extractors/search.py:15-59 | every project link has `/gallery/` in its base, no two share a base, and each is an input href made absolute, query included |
| SearchExtractor.ExtractProjectLinks | src/extractors/search.py:15-59 | the two nested loops return `ProjectLinks`, in selector order and then document order |
| SearchExtractor.ScanProjectLinks | src/extractors/search.py:40-57 | the inner loop continues the specified run over one selector's elements |
| SearchExtractor.UserCandidate | src/extractors/search.py:80-90 | an element has a candidate exactly when its href is non-empty, not `/`, `/search` or `/discover` and not a footer link |
| SearchExtractor.UserLinksProperties | src/extractors/search.py:61-100 | every profile link has a single-segment behance.net base, no two share a base, and each comes from a kept href |
| SearchExtractor.ExtractUserLinks | src/extractors/search.py:61-100 | the loop returns `UserLinks` |
| SearchExtractor.FirstNonEmpty | src/extractors/search.py:161-175 | the first non-empty list among the attempts, every earlier one having failed or been empty; `[]` exactly when there is none |
| SearchExtractor.GetTrendingProjects | src/extractors/search.py:145-175 | the loop over featured and discover returns `FirstNonEmpty` of their outcomes |
| SearchExtractor.TrendingPrefersFeatured | src/extractors/search.py:156-175 | featured links win when there are any; discover is used only when featured fails or is empty |
| UserExtractor.Username | src/extractors/user.py:31 | the username holds no `/` and no `?` |
| UserExtractor.ProfileUsername | src/extractors/user.py:31 | a profile URL `<prefix>/<handle>`, with or without a trailing slash and with or without a query, yields the handle |
| UserExtractor.PlainProfile | src/extractors/user.py:31 | `<prefix>/<handle>` yields the handle |
| UserExtractor.SlashedProfile | src/extractors/user.py:31 | `<prefix>/<handle>/` yields the handle |
| UserExtractor.QueriedProfile | src/extractors/user.py:31 | `<prefix>/<handle>?<query>` yields the handle |
| UserExtractor.UsernameOfSegment | src/extractors/user.py:31 | the username of `<prefix>/<last>` is `last` up to its query |
| UserExtractor.FollowCount | src/extractors/user.py:64-82 | no element gives 0 |
| UserExtractor.ThousandsSeparated | src/extractors/user.py:66-70 | "1,234 followers" reads as 1234 |
| UserExtractor.FollowCountOf | src/extractors/user.py:66-70 | the count is the value of the first digit run of the stripped, comma-free text |
| UserExtractor.LeadingDigitRun | src/extractors/user.py:69 | digits followed by a non-digit are the first run |
| UserExtractor.ExtractStats | src/extractors/user.py:139-154 | parsed stats always satisfy the stats constraints |
| UserExtractor.ExtractStatsDecides | src/extractors/user.py:139-154 | the stats validate if and only if every present counter is a non-negative integer; a missing one reads as 0 |
| UserExtractor.PageStatsZero | src/extractors/user.py:60-89 | on the page path the stats are the two follow counts and three zeros |
| UserExtractor.PageStatsDump | src/extractors/user.py:60-87 | the page's stats dictionary is the dump of those stats |
| UserExtractor.CountersDefaulted | src/extractors/user.py:85-87 | `setdefault` adds each missing counter as 0 |
| UserExtractor.ExtractStatsOfDump | src/extractors/user.py:148-154 | every counter of a dumped record is read back |
| UserExtractor.FromPageProperties | src/extractors/user.py:17-105 | a page yields a user if and only if its URL without the query is http(s); the user has the URL's username, a display name, the URL without its query, the first location with text or none, only the follow counts, no company, occupation, links or fields, and an id in `[0, 10**8)` |
| UserExtractor.ExtractFromPage | src/extractors/user.py:17-105 | the selector loops return `FromPage` |
| UserExtractor.JsonArguments | src/extractors/user.py:126-137 | the optional arguments are `data.get` with `None` or an empty list, and the stats are those read first |
| UserExtractor.JsonOptionalDefaults | src/extractors/user.py:131-133 | missing location, company and occupation are `None` |
| UserExtractor.JsonListDefaults | src/extractors/user.py:156-178 | missing social links and fields are empty lists |
| UserExtractor.JsonStatsDefaults | src/extractors/user.py:116-118 | the user has the stats read first, all 0 without a stats object |
| UserExtractor.EmptyStats | src/extractors/user.py:148-154 | an empty stats dictionary reads as all zeros |
| PinterestExtractor.Absolute | src/extractors/pinterest.py:171-173 | a non-empty relative href gets the `https://www.pinterest.com` prefix, an empty one or one starting with `http` is kept, and every non-empty result starts with `http` |
| PinterestExtractor.AbsoluteKeeps | src/extractors/pinterest.py:171-173 | the absolute URL still contains every substring of the href, so it still names the user |
| PinterestExtractor.AbsoluteAddsNo | src/extractors/pinterest.py:154-173 | the prefix adds no `_saved` or `_created`, so a filtered href stays filtered |
| PinterestExtractor.SearchFrom | src/extractors/pinterest.py:176-177 | the search returns the leftmost position at which the pattern matches, or none when it matches nowhere |
| PinterestExtractor.Group | src/extractors/pinterest.py:176-177 | the group is absent exactly when the pattern matches nowhere; a present group is non-empty and made of the pattern's character class |
| PinterestExtractor.LastSegmentOf | src/extractors/pinterest.py:176-177 | the board id read from a URL is a non-empty text without `/`, or "unknown" |
| PinterestExtractor.LastSegmentOfPath | src/extractors/pinterest.py:176-177 | a URL ending in `/<segment>` or `/<segment>/` has that segment as its board id |
| PinterestExtractor.GroupIsAt | src/extractors/pinterest.py:245-249 | the group of the leftmost match is the result of the search |
| PinterestExtractor.BoardOwnerOf | src/extractors/pinterest.py:245-246 | `https://www.pinterest.com/<user>/...` names `user` as the board's owner |
| PinterestExtractor.PinIdOf | src/extractors/pinterest.py:282-283 | `https://www.pinterest.com/pin/<digits>...` names the digits as the pin id |
| PinterestExtractor.BoardUrlRoundTrip | src/extractors/pinterest.py:171-177 | a board link `/<user>/<slug>/` becomes a board URL from which the pin extractor reads back `user` as owner and `slug` as board name |
| PinterestExtractor.Kept | src/extractors/pinterest.py:117-131 | the kept items are among the outcomes that produced one, and there are no more of them than cards |
| PinterestExtractor.KeptConcat | src/extractors/pinterest.py:259-268 | the loops keep the order of the cards: the items kept from two runs of cards are those of the first followed by those of the second |
| PinterestExtractor.KeptSnoc | src/extractors/pinterest.py:259-266 | one more card appends its item, if it has one, and nothing else |
| PinterestExtractor.BoardDropped | src/extractors/pinterest.py:136-169 | a card that raises nothing is dropped exactly when it has no link or its href is empty, lacks the username or names `_saved` or `_created` |
| PinterestExtractor.BoardProperties | src/extractors/pinterest.py:133-204 | a kept board belongs to the user, has an absolute URL naming the user and neither tab, its id is the URL's last segment, its name falls back to the id and its pin count to 0 |
| PinterestExtractor.BoardOutcomes | src/extractors/pinterest.py:117-129 | one outcome per card, the card's own, in order |
| PinterestExtractor.BoardOutcomesSnoc | src/extractors/pinterest.py:117-129 | the outcomes of one more card are those before plus that card's |
| PinterestExtractor.BoardsProperties | src/extractors/pinterest.py:93-131 | the boards come from the first scan when it found 5 cards or more and from the re-scan otherwise, never outnumber the cards scanned, and each belongs to the user and names neither tab |
| PinterestExtractor.ExtractBoards | src/extractors/pinterest.py:93-131 | the card loop returns the kept boards of the chosen scan, in order |
| PinterestExtractor.PinProperties | src/extractors/pinterest.py:270-300 | a card without a link gives no pin; a kept pin belongs to the owner and board passed in, its id is the digit run after `/pin/` in its URL or "unknown", and its image URL is "" exactly when the card has no image source |
| PinterestExtractor.PinOutcomes | src/extractors/pinterest.py:259-266 | one outcome per card, the card's own, in order |
| PinterestExtractor.PinOutcomesSnoc | src/extractors/pinterest.py:259-266 | the outcomes of one more card are those before plus that card's |
| PinterestExtractor.BoardPinsProperties | src/extractors/pinterest.py:230-268 | at most `max_pins` pins and no more than cards, each filed under the owner and board name read from the board URL |
| PinterestExtractor.ExtractPinsFromBoard | src/extractors/pinterest.py:259-268 | the loop over the first `max_pins` cards returns the kept pins, in order |
| PinterestAuth.FirstFound | src/auth/pinterest_auth.py:48-56 | the selector chosen is the first that yielded an element, and there is none exactly when no selector did |
| PinterestAuth.TrySelectors | src/auth/pinterest_auth.py:104-113 | the `try`/`break`/`continue` loop over the selectors stops at the first that yields an element |
| PinterestAuth.IndicatorFoundIff | src/auth/pinterest_auth.py:174-190 | an indicator is found if and only if one is present and every probe before it found nothing without raising |
| PinterestAuth.ProbeIndicators | src/auth/pinterest_auth.py:175-190 | the indicator loop returns at the first present indicator and gives up at the first raise |
| PinterestAuth.GoogleVerdictIff | src/auth/pinterest_auth.py:168-197 | the three checks after the login reduce to: the URL names `pinterest.com` or a logged-in indicator is found |
| PinterestAuth.GoogleLoginProperties | src/auth/pinterest_auth.py:11-203 | the Google login succeeds if and only if nothing raised, a Google button was found, the click led to Google accounts or opened a popup, both credential fields were there and the final verdict holds; without a button it stops, without a Next or Sign-in button it presses Enter, and it uses the popup exactly when the click did not navigate to Google |
| PinterestAuth.LoginWithGoogle | src/auth/pinterest_auth.py:11-203 | the step-by-step login returns the outcome `GoogleLogin` describes |
| PinterestAuth.HostNamesSite | src/auth/pinterest_auth.py:192-194 | every URL on the Pinterest host passes the Google login's last check |
| PinterestAuth.VerdictsOnLoginPage | src/auth/pinterest_auth.py:192-263 | still on the login page, the Google login reports success while the direct login reports failure |
| PinterestAuth.LoginWithCookies | src/auth/pinterest_auth.py:269-301 | loading cookies succeeds exactly when the file exists, parses and adding the cookies does not raise; on failure the jar is unchanged |
| PinterestAuth.SaveCookies | src/auth/pinterest_auth.py:303-334 | saving succeeds exactly when writing does not raise |
| PinterestAuth.CookiesRoundTrip | src/auth/pinterest_auth.py:269-334 | cookies saved from a session load back unchanged into an empty context |
| BehanceScraper.Pass | scripts/scrape_behance.py:131-150 | a pass never scrapes more links than it attempts, nor attempts more than it was given |
| BehanceScraper.PassSkipsProcessed | scripts/scrape_behance.py:131-140 | no link processed before the pass is attempted; the links scraped are distinct, were attempted and were not processed before |
| BehanceScraper.PassScrapesSuccesses | scripts/scrape_behance.py:131-150 | a link is scraped only when its scrape returned normally, and every attempted link whose scrape returned normally is scraped |
| BehanceScraper.RerunSkipsScraped | scripts/scrape_behance.py:131-140 | because the processed set persists, running the same links again attempts none of the links already scraped |
| BehanceScraper.ImageUrls | scripts/scrape_behance.py:189 | one URL per image, the image's own, in order |
| BehanceScraper.SelectModeProperties | scripts/scrape_behance.py:354-379 | the run fails exactly when none of `--search`, `--user` and `--trending` is given (an empty string counts as absent); a given search wins, then a user, then trending |
| BehanceScraper.Scraper.constructor | scripts/scrape_behance.py:29-64 | the scraper starts with no processed projects and repositories sharing one database |
| BehanceScraper.TurnsFollowPass | scripts/scrape_behance.py:131-150 | the turns of the loop keep to `Pass`: the processed set grows by exactly the links scraped, the count is theirs and the links attempted are the same |
| BehanceScraper.ProcessedTurnsChangeNothing | scripts/scrape_behance.py:131-134 | over links that are all processed already, the loop changes nothing: no count, no attempt, no file and no document |
| BehanceScraper.TurnsWriteTwoCollections | scripts/scrape_behance.py:158-198 | the loop writes only the project and image collections; every other collection, the users' among them, keeps its documents |
| BehanceScraper.ProjectEffectOtherCollections | scripts/scrape_behance.py:174-184 | one link's writes touch only the project and image collections |
| BehanceScraper.Scraper.ScrapeLinks | scripts/scrape_behance.py:127-150 | the loop over the first `max_projects` links counts the links scraped, reports those attempted and adds exactly the scraped ones to the processed set; the file system, the pipeline's output directory and the database end as the turns over those links leave them |
| BehanceScraper.Scraper.Visit | scripts/scrape_behance.py:131-149 | one turn: a processed link changes nothing; any other is attempted, makes the writes of `scrape_project` up to where it raised, and is counted only if it returned normally |
| BehanceScraper.Scraper.ScrapeLink | scripts/scrape_behance.py:138-149 | the `try` block: `ok` exactly when `scrape_project` returned normally, the link joins the processed set exactly then, and the writes are none, the upsert alone, or all of `scrape_project`'s, by where it raised |
| BehanceScraper.Scraper.ScrapeProject | scripts/scrape_behance.py:158-198 | the project is upserted by id; with images, they are inserted and downloaded into `<output>/<project id>`; without images nothing else changes |
| BehanceScraper.Scraper.StoreImages | scripts/scrape_behance.py:182-198 | the images are inserted in one batch and every URL is downloaded into the project's directory |
| BehanceScraper.Scraper.ScrapeUser | scripts/scrape_behance.py:200-258 | the user is inserted (never updated), then the user's project links go through the shared loop, whose writes start from the database with that user |
| PinterestScraper.ProfileAuthOrder | scrape_pinterest_images.py:175-193 | cookies are tried first and only with a path; Google only when they did not log in and both credentials are given; the direct login only after Google failed, and last; the scraper is logged in exactly when one of the logins tried succeeded; cookies are saved exactly when a credential login succeeded with a path set, never after a cookie restore |
| PinterestScraper.CleanName | scrape_pinterest_images.py:305 | the folder name holds only letters, digits, spaces, `-` and `_`, and neither starts nor ends with white space |
| PinterestScraper.CleanNameIdempotent | scrape_pinterest_images.py:305 | cleaning a cleaned name changes nothing |
| PinterestScraper.DownloadUrls | scrape_pinterest_images.py:301 | the URLs downloaded are exactly the non-empty image URLs of the pins, never more of them than pins |
| PinterestScraper.Succeeded | scrape_pinterest_images.py:311 | the success count never exceeds the number of downloads |
| PinterestScraper.PinDocs | scrape_pinterest_images.py:296 | one document per pin, its dump, in order |
| PinterestScraper.BoardDocs | scrape_pinterest_images.py:267 | one document per board, its dump, in order |
| PinterestScraper.LimitBoards | scrape_pinterest_images.py:261-262 | the boards kept are a prefix of those found |
| PinterestScraper.LimitBoardsProperties | scrape_pinterest_images.py:261-262 | a missing or zero limit keeps every board; a positive one keeps the first `max_boards` |
| PinterestScraper.ScrapedBoardsAccounted | scrape_pinterest_images.py:271-331 | after the loop the set of processed boards has only grown, there is one scraped board and one summary per newly processed URL, and the images downloaded never outnumber the pins scraped |
| PinterestScraper.BoardStepAccounted | scrape_pinterest_images.py:272-331 | each turn of the loop keeps those counts in step |
| PinterestScraper.ScrapedBoardsFinishedOnly | scrape_pinterest_images.py:271-331 | a URL joins the processed set only when its board's visit did not raise, and a board processed before the loop is never visited again |
| PinterestScraper.SavedPins | scrape_pinterest_images.py:67-114 | never more saved pins than cards looked at |
| PinterestScraper.SavedPinsProperties | scrape_pinterest_images.py:67-114 | every saved pin has an image, is filed under `saved_pins` for the user, and one whose URL has no pin number is named `pin_<k>` after the pins kept before it |
| PinterestScraper.FallbackIdsDistinct | scrape_pinterest_images.py:88 | the `pin_<k>` fallback ids of two saved pins never collide |
| PinterestScraper.ExtractPinsFromCurrentPage | scrape_pinterest_images.py:67-114 | the loop over the first `max_pins` cards returns the saved pins of those cards, at most `max_pins` of them |
| PinterestScraper.Scraper.constructor | scrape_pinterest_images.py:24-65 | the scraper starts with no processed boards |
| PinterestScraper.Scraper.StoreBoardPins | scrape_pinterest_images.py:294-312 | the pins are inserted, the pipeline points at `<output>/<username>/<clean board name>`, and the file system is what downloading the pins' image URLs there leaves |
| PinterestScraper.Scraper.StoreTurn | scrape_pinterest_images.py:294-315 | a board with pins adds its pins and successful downloads to the statistics |
| PinterestScraper.Scraper.FinishTurn | scrape_pinterest_images.py:317-323 | the board is marked processed, counted and summarised with its pins and downloads |
| PinterestScraper.Scraper.ScrapeBoard | scrape_pinterest_images.py:272-331 | one turn of the loop moves the state as `BoardStep` says: a processed board or a raising visit changes nothing |
| PinterestScraper.Scraper.ScrapeBoards | scrape_pinterest_images.py:271-331 | the loop leaves the state `ScrapedBoards` describes, so the accounting lemmas above hold of it |
| PinterestScraper.Scraper.ScrapeProfile | scrape_pinterest_images.py:149-333 | the scraper authenticates as `ProfileAuth` says, upserts the profile by username, keeps the first `max_boards` boards, inserts them when there are any and runs the board loop from empty statistics |
| CronScraper.FirstQueryFrom | cron_scraper.py:117 | the search finds the leftmost `search=` followed by a character other than `&`, or reports that there is none |
| CronScraper.SearchQueryDefault | cron_scraper.py:117-118 | a URL without such a `search=` searches "design" |
| CronScraper.SearchQueryAt | cron_scraper.py:117-118 | otherwise the query is the whole `[^&]+` run after the leftmost match: non-empty, free of `&`, and ended by `&` or the end of the URL |
| CronScraper.SearchQueries | cron_scraper.py:110-118 | one query per configured URL, that URL's, in order |
| CronScraper.SearchQueriesStep | cron_scraper.py:110-118 | the queries of one more URL are those before plus its own |
| CronScraper.RaisedCount | cron_scraper.py:165-168 | no more failing links than links |
| CronScraper.WithImagesCount | cron_scraper.py:143-163 | the links with images and the failing links together never outnumber the links |
| CronScraper.CountsAppend | cron_scraper.py:125-168 | the three tallies over the links add up link by link |
| CronScraper.CountsSnoc | cron_scraper.py:125-168 | the tallies of a loop are those of all but its last link plus the last link's |
| CronScraper.ProjectsDoneCounted | cron_scraper.py:125-168 | over one search's links, `errors` rises once per link that raised, `projects_scraped` once per link with images, and the downloads never exceed the images found |
| CronScraper.ProjectStepCounted | cron_scraper.py:126-168 | each turn of the project loop keeps those counters in step |
| CronScraper.SearchedLinks | cron_scraper.py:120-121 | a search scrapes at most `max_projects` links |
| CronScraper.SearchesDoneStep | cron_scraper.py:110-173 | the state after one more search is one search turn applied to the state before |
| CronScraper.SearchesDoneCounted | cron_scraper.py:110-173 | every failure is counted exactly once and the loops go on: `errors` is the failing searches plus the failing links, `projects_scraped` the links scraped with images, and together they never exceed the links scraped plus the searches |
| CronScraper.SearchProjectsBound | cron_scraper.py:121-162 | `projects_scraped` never exceeds `max_projects` per search URL |
| CronScraper.CronAuthOrder | cron_scraper.py:225-236 | cookies are tried exactly when the cookie file exists, and first; Google only when they did not log in and both credentials are given; no direct login; the run is logged in exactly when a login tried succeeded; cookies are saved exactly after a successful Google login with a cookie path set |
| CronScraper.CronAuthNoFallback | cron_scraper.py:230-236 | where the command-line scraper falls back to the direct login after a failed Google login, the unattended run stays logged out |
| CronScraper.BoardWrites | cron_scraper.py:261-267 | one upsert per board, keyed by its id and owner, with its dump as body, in order |
| CronScraper.PinWrites | cron_scraper.py:285-290 | one upsert per pin, keyed by its id, with its dump as body, in order |
| CronScraper.BoardsRaised | cron_scraper.py:308-311 | no more failing boards than boards |
| CronScraper.BoardsDoneCounted | cron_scraper.py:270-311 | every board is either scraped or one error, never both, and the downloads never exceed the pins scraped |
| CronScraper.UpsertOtherCount | cron_scraper.py:263-267 | an upsert under one key leaves the documents under a conflicting key as they were |
| CronScraper.KeyedPrefix | cron_scraper.py:262-267 | a prefix of a keyed write list is keyed |
| CronScraper.WrittenLast | cron_scraper.py:262-267 | a key is written by a list when it is written by all but the last write or by the last |
| CronScraper.UpsertAllCount | cron_scraper.py:262-267 | after the upserts a key that had no document and was written has exactly one, and every other count is unchanged |
| CronScraper.BoardKeysKeyed | cron_scraper.py:263-267 | the board keys of two boards are equal or conflicting |
| CronScraper.PinKeysKeyed | cron_scraper.py:286-290 | the pin keys of two pins are equal or conflicting |
| CronScraper.BoardsNotDuplicated | cron_scraper.py:261-267 | upserting the boards leaves exactly one document per board key that had at most one, and upserting them again adds nothing |
| CronScraper.PinsNotDuplicated | cron_scraper.py:283-290 | the same for the pins, keyed by pin id alone |
| CronScraper.CronScraper.constructor | cron_scraper.py:41-64 | the scraper holds the two configurations and repositories writing to the Behance database |
| CronScraper.CronScraper.SaveImages | cron_scraper.py:143-158 | the images are inserted, the pipeline points at `<output>/<owner> - <title>` cleaned, and the file system is what downloading the image URLs there leaves |
| CronScraper.CronScraper.ScrapeProject | cron_scraper.py:126-168 | one turn of the project loop moves the state as `ProjectStep` says |
| CronScraper.CronScraper.ScrapeProjects | cron_scraper.py:125-168 | the project loop leaves the state `ProjectsDone` describes |
| CronScraper.CronScraper.ScrapeSearch | cron_scraper.py:113-173 | one turn of the search loop moves the state as `SearchStep` says |
| CronScraper.CronScraper.ScrapeBehance | cron_scraper.py:71-183 | `scrape_behance` searches the query of every URL and leaves the state `SearchesDone` describes, from zero counters |
| CronScraper.CronScraper.UpsertEach | cron_scraper.py:262-267 | the upserts, in order, change collection `c` and nothing else |
| CronScraper.CronScraper.SavePins | cron_scraper.py:283-304 | the pins are upserted, the pipeline points at the board's folder, and the file system is what downloading the pin images there leaves |
| CronScraper.CronScraper.ScrapeBoard | cron_scraper.py:271-311 | one turn of the board loop moves the state as `BoardStep` says |
| CronScraper.CronScraper.ScrapeBoards | cron_scraper.py:270-311 | the board loop leaves the state `BoardsDone` describes |
| CronScraper.CronScraper.ScrapePinterest | cron_scraper.py:185-321 | `scrape_pinterest` authenticates as `CronAuth` says, upserts every board and runs the board loop from zero counters |
| CronScraper.CronScraper.Run | cron_scraper.py:323-353 | both scrapers run, the Pinterest one from the state the Behance one left; each result is the statistics its loops leave, or the error when its setup or its teardown raised; the final store, file system and output directory are those the Pinterest half leaves; two failed setups change nothing |
| CronScraper.CronScraper.RunBehance | cron_scraper.py:331-336 | a failed Behance setup is recorded and changes nothing; otherwise the searches leave the state `SearchesDone` describes and its statistics are returned, or the teardown's error with every write kept |
| CronScraper.CronScraper.RunPinterest | cron_scraper.py:338-343 | a failed Pinterest setup is recorded and changes nothing; otherwise the boards are upserted, the board loop leaves the state `BoardsDone` describes and its statistics are returned, or the teardown's error with every write kept |
| CronScraper.CronScraper.HalvesCounted | cron_scraper.py:71-321 | when neither half raises, the Behance result counts one error per failing search or link and one project per link with images, and the Pinterest result one error per failing board, every other board as scraped and no more downloads than pins |
| Behavior.RandInt | src/browser/behavior.py:114-116 | `random.randint(a, b)` lies in `[a, b]`, and a draw `d <= b - a` gives `a + d`, so every value of the range is reached |
| Behavior.Unit | src/browser/behavior.py:143 | `random.random()` lies in `[0, 1)` |
| Behavior.Uniform | src/browser/behavior.py:143 | `random.uniform(a, b)` lies in `[a, b]` |
| Behavior.NewMouseMovement | src/browser/behavior.py:10-39 | a movement is built exactly when x and y are non-negative and the duration positive; otherwise each failing field contributes its own message |
| Behavior.ScrollPatternNoLengthCheck | src/browser/behavior.py:48-53 | delays of another length than the positions are accepted as given |
| Behavior.Positions | src/browser/behavior.py:135-140 | one position per scroll amount |
| Behavior.PositionsSnoc | src/browser/behavior.py:136-140 | one more amount adds the last position plus that amount, capped at the page height |
| Behavior.PositionsScroll | src/browser/behavior.py:135-140 | positions never decrease and never pass the page height; each step is at most the largest amount and, unless it stops at the page height, at least the smallest |
| Behavior.ScrollsSnoc | src/browser/behavior.py:138-140 | one more scroll by an amount in range keeps that property |
| Behavior.ScrollAmounts | src/browser/behavior.py:138 | one amount per scroll, each `randint(200, 500)` of its own draw |
| Behavior.ScrollDelaysOf | src/browser/behavior.py:143 | one delay per position, each `uniform(0.5, 2.0)` of its own draw |
| Behavior.ScrollPatternProperties | src/browser/behavior.py:122-145 | five to ten positions with as many delays, each between 0.5 and 2 seconds; the positions scroll down by 200 to 500 pixels at a time and stop at the page height |
| Behavior.HumanBehavior.constructor | src/browser/behavior.py:59-70 | the behaviour keeps its typing delay range |
| Behavior.HumanBehavior.GenerateMouseMovements | src/browser/behavior.py:101-120 | exactly `count` movements (none for a negative count), each from its own draws, with x in `[0, 1920]`, y in `[0, 1080]` and duration in `[100, 500]` |
| Behavior.HumanBehavior.GenerateScrollPattern | src/browser/behavior.py:122-145 | the generator returns the pattern `ScrollPatternProperties` is about |
| Behavior.HumanBehavior.ScrollPositions | src/browser/behavior.py:133-140 | the positions loop returns the positions of the drawn amounts |
| Behavior.HumanBehavior.ScrollDelays | src/browser/behavior.py:143 | the delays loop returns one drawn delay per position |
| DriveUpload.LexLeTotal | scripts/upload_to_gdrive.py:189 | any two names are ordered one way or the other |
| DriveUpload.KeyLeTotal | scripts/upload_to_gdrive.py:189 | any two entries are ordered one way or the other by `(not is_dir, name)` |
| DriveUpload.Insert | scripts/upload_to_gdrive.py:189 | inserting an entry adds exactly it and keeps a sorted listing sorted |
| DriveUpload.SortEntries | scripts/upload_to_gdrive.py:189 | the sorted listing is a permutation of the entries, ordered by `(not is_dir, name)` |
| DriveUpload.DirectoriesFirst | scripts/upload_to_gdrive.py:189 | in the sorted listing every directory comes before every file |
| DriveUpload.CacheKeyInjective | scripts/upload_to_gdrive.py:100-103 | two cache keys are equal only for the same parent and name, for parent ids without a colon other than `None` |
| DriveUpload.FolderLookupProperties | scripts/upload_to_gdrive.py:90-137 | a cached pair is answered from the cache with no request; any other pair is first looked up by a listing; a success leaves the id cached under the pair's key, a failure leaves the cache as it was, and no cached id is replaced |
| DriveUpload.LookupIgnoresStats | scripts/upload_to_gdrive.py:90-137 | the lookup neither reads nor writes the statistics |
| DriveUpload.TallyAllPermutation | scripts/upload_to_gdrive.py:189-214 | the tally of a directory's entries does not depend on their order, so sorting changes no count |
| DriveUpload.RemoveMatched | scripts/upload_to_gdrive.py:189 | taking a matched entry out of both listings keeps them permutations of each other |
| DriveUpload.TallyAllRemove | scripts/upload_to_gdrive.py:194-214 | the tally of a listing is one entry's tally plus that of the rest |
| DriveUpload.VisitCounts | scripts/upload_to_gdrive.py:184-214 | a walk that ends without an error counts every file once, as uploaded or failed, every directory reached as one folder and every hidden entry as one skip; an unlistable directory counts nothing |
| DriveUpload.ItemsCounts | scripts/upload_to_gdrive.py:194-214 | the item loop counts what its remaining items hold |
| DriveUpload.ItemStepCounts | scripts/upload_to_gdrive.py:195-214 | one item counts what it holds |
| DriveUpload.SubdirCounts | scripts/upload_to_gdrive.py:200-204 | a subdirectory counts one folder plus what it holds |
| DriveUpload.DeniedIsSkipped | scripts/upload_to_gdrive.py:188-192 | a directory that cannot be listed changes nothing and the walk goes on |
| DriveUpload.GoogleDriveUploader.constructor | scripts/upload_to_gdrive.py:40-50 | the uploader starts with an empty folder cache |
| DriveUpload.GoogleDriveUploader.CreateFolder | scripts/upload_to_gdrive.py:90-137 | `create_folder` changes the cache and the requests as `FolderLookup` says |
| DriveUpload.GoogleDriveUploader.UploadFile | scripts/upload_to_gdrive.py:139-163 | one upload request into the parent folder, or the root without one; the result is the id Drive gave, and the cache is unchanged |
| DriveUpload.GoogleDriveUploader.ProcessDirectory | scripts/upload_to_gdrive.py:184-214 | the walk leaves the state `Visit` describes |
| DriveUpload.GoogleDriveUploader.ProcessItems | scripts/upload_to_gdrive.py:194-214 | the loop over the sorted items leaves the state `Items` describes |
| DriveUpload.GoogleDriveUploader.ProcessItem | scripts/upload_to_gdrive.py:195-214 | one item leaves the state `ItemStep` describes |
| DriveUpload.GoogleDriveUploader.ProcessSubdirectory | scripts/upload_to_gdrive.py:200-204 | a subdirectory gets its folder, is counted and walked |
| DriveUpload.GoogleDriveUploader.ProcessFile | scripts/upload_to_gdrive.py:206-214 | a file is uploaded and counted as uploaded or failed |
| DriveUpload.GoogleDriveUploader.UploadDirectory | scripts/upload_to_gdrive.py:165-228 | a missing path sends nothing and changes no cache; otherwise the root folder, named by `root_folder_name` or the directory name, is looked up or created under the parent and the directory is walked into it |

## Left out

- Browser automation (navigation, waits, clicks, scrolling, `page.evaluate`, popups), BeautifulSoup selector matching, HTTP transfers, MongoDB connections and the Google Drive API: what they return is a parameter of the model (page records, per-attempt outcomes, oracle functions).
- `download_many` runs its downloads with `asyncio.gather`; the model runs them one after the other in URL order, so interleavings of concurrent downloads are not modelled.
- MD5 digests, SHA-256 fingerprints and Python's per-process `hash()` are oracle functions; nothing is proved about their values.
- `random` draws are parameters; `random.uniform` is exact real arithmetic, not IEEE floats.
- Float arithmetic: `_parse_number` (src/extractors/project.py:269-297), `_parse_count` and `_parse_pin_count` (src/extractors/pinterest.py:69-87, 206-218) are oracle parameters, because `int(float(x) * k)` rounding is not exact; `Image.aspect_ratio` and `calculate_aspect_ratio` are not modelled.
- `HumanBehavior.random_delay`, `type_like_human`, `reading_delay` and `scroll_randomly` only sleep, type or scroll; they are not modelled.
- `PinterestProfileExtractor.extract_from_page` is not modelled: both scrapers that use it take the extracted profile as a parameter.
- `ProjectExtractor.extract_metadata` and `extract_covers`, `ImageExtractor.extract_url_variants` and `download_image`, `ImagePipeline.get_file_size`, `SearchExtractor.search_projects`, `get_user_projects` and `scroll_to_load_more` only navigate, copy dictionary entries or read the file system; they are not modelled, and the link lists they return are inputs.
- Timestamps (`datetime.now`, `scraped_at`) are parameters where they are kept: `extract_from_page` takes two readings, the one `extract_metadata` takes for publication and creation and the later one for modification. MongoDB `_id` generation, printing, logging, argument parsing, `sys.exit`, sleeps and rate-limit delays are left out.
- The OAuth flow of `GoogleDriveUploader.authenticate` is left out; Drive's list, create and upload answers are an oracle record.
- `src/browser/stealth.py`, `src/browser/manager.py` and `src/storage/mongo_client.py` are not part of this model.
- The cron job's configured Pinterest credentials are not reproduced: `CronScraper.DefaultPinterest` takes the e-mail and password as parameters.
- Characters of Latin-1 follow Python: `isalnum`, `isspace` and `lower` classify and case-map them as Python does, and `\d` is an ASCII decimal digit; other code points are neither case-mapped nor classified, and there is no Unicode case folding or normalisation.
- `urlparse` is modelled for the URLs the extractors parse; its bracketed-host validation and NFKC netloc checks are left out, and only an unbalanced `[` or `]` raises.
- DriveUpload.GoogleDriveUploader.UploadDirectory: returns the statistics the source only prints, so they can be stated.
- PinterestAuth.LoginWithGoogle: each awaited step that can raise is one `raises` flag of the page record, so which step raised is not distinguished.
- ImageRepository.ImageRepository.SaveMany: requires a non-empty list, which the source leaves to its callers (src/storage/image_repository.py:75); every caller checks it.
- BehanceScraper.Scraper.ScrapeLinks: the discovery of the links (`search_projects`, `get_user_projects`, `get_trending_projects` navigation) is an input, so a discovery that raises is not modelled. What scraping a link yields is an input too, one `ProjectRun` per link: a raise before the upsert (navigation, project extraction) or after it (image extraction) is modelled, while a raise inside `upsert`, `save_many` or `download_many` is not.
- Documents.FieldUrl: `IsHttpUrl` is a case-sensitive test for an `http://` or `https://` prefix followed by at least one character, and the URL is stored as given; pydantic's `HttpUrl` also accepts an upper-case scheme (`HTTPS://a.b`), rejects a URL without a host (`http://?`) and normalises what it stores (a host-only URL gains a `/`, the host is lower-cased). The same gap holds wherever `IsHttpUrl` decides validity (`NewProject`, `NewUser`, `MakeImage`, the page readers).
- Documents.FieldInt: pydantic's lax mode also accepts `True`, `False` and integer strings such as `"5"` for an `int` field; the model accepts only integer values, which is what every document the scraper writes holds.
- UserExtractor.ExtractStatsDecides: for the same reason a counter given as a boolean or an integer string is rejected here, though pydantic would coerce it.
- UserRepository.UserRepository.GetCollection: a raw Motor client answers `hasattr(client, 'database_name')` through its attribute-as-database lookup, so the source calls `get_collection` on it and raises `TypeError`; Motor's behaviour is not part of this model, which takes the `test_behance_crawler` branch written for a raw client.
- CronScraper.CronScraper.Run: a raise before a scraper writes (its setup) and one after its loops (closing the page, the context, the browser or the connection) are modelled; one partway through the board upserts of `scrape_pinterest` (cron_scraper.py:262-267), which records the error with some boards already written, is not.
- PinterestAuth.LoginWithCookies: the loaded cookies are appended to the jar, while Playwright's `add_cookies` replaces a cookie with the same name, domain and path; `CookiesRoundTrip` is stated for a fresh context only.
- Text.PyInt: underscores between digits (`"1_920"`), which Python's `int()` accepts, are refused, so `Dimension` reports such an attribute as a `ValueError`.
- DriveUpload.GoogleDriveUploader.UploadFile: only the `HttpError` of an upload is modelled (counted as a failed file); any other exception, which ends the whole walk in the source, is not. The same holds for the folder lookup and creation (scripts/upload_to_gdrive.py:110-119, 129-137): only their `HttpError` is modelled, and any other exception raised by the Drive client, which propagates out of `get_or_create_folder`, is not.
- Documents.FieldTime: a `datetime` field validates only when it holds a timestamp value; pydantic's lax mode also accepts integer or float seconds since the epoch and ISO 8601 strings and converts them. The same gap carries into `ProjectModel.ParseProject` and every other parser that reads a `datetime` field. The scraper itself only writes `datetime` values.

## Findings

| source | as written | input that shows it | evidently intended | confidence | as-written member | corrected member |
|---|---|---|---|---|---|---|
| src/extractors/project.py:227-229 | `([\d,]+)\s*appreciation` also matches a run of commas alone, and `int('')` raises, so `extract_stats` fails | a stats text starting `, appreciations` | a run without digits is no count: appreciations stay 0 | not executed | ProjectExtractor.CommaOnlyRaises | ProjectExtractor.CommaOnlyCorrected |
| src/extractors/project.py:231-234 | the views pattern asks for an upper-case `[KMB]` suffix in text that was just lower-cased, so the suffix is never read | a stats text `1.7K views`, lower-cased to `1.7k views` | the suffix is read, so `1.7k` reaches `_parse_number` | not executed | ProjectExtractor.SuffixNeverRead | ProjectExtractor.SuffixReadCorrected |

`ProjectExtractor.FromPage` and `ExtractFromPage` follow `extract_stats` as written, raising where it raises; `ProjectExtractor.FromPageCorrected` reads the page with the corrected statistics, and `FromPageCorrectionAgrees` ties the two together.
