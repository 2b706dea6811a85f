# Broadleaf open admin: list-grid fetch resolution and image artifact processing

A Dafny model of two small server-side components of the Broadleaf Commerce open
admin platform.

**List-grid fetch factory** (`list_grid_fetch.dfy`, module `ListGridFetch`).
When the admin renders a list grid, the factory decides which fields to fetch
for the grid's ceiling entity. It strips one trailing `Impl` from the entity
class name. It then looks in a key-value cache under `"refineFetch:" + name`.
On a miss it builds a `ListGridFetchRequest`:
- the implementation class and the sandbox flag come from the entity DAO and the sandbox helper;
- the first configured `ListGridFetchEntity` rule whose exact `entityTarget` equals the name, or whose `regexTarget` matches the whole name, is chosen;
- with a rule, the fetch is refined, and the fields are the universal fields, then the rule's own fields, then the fields of every universal field handler that accepts the entity, in handler order;
- without a rule, the fetch is not refined.

The result is stored in the cache. The factory is a class. Its rule list,
universal fields and cache (`map<string, FetchRequest>`) are fields that its
methods update. The resolution is also given as a specification function
(`Resolve`), and the methods are proved against it. The setters do not clear
the cache, so a name that is already cached keeps its old request after the
rules change.

**Image artifact processor** (`image_artifact.dfy`, module `ImageArtifact`).
An upload is supported when one of the configured types (by default
`gif jpg jpeg png bmp wbmp`) is a suffix of its file name. The test is
case-sensitive and does not need a dot. `getImageMetadata` reports the first
reader's width and height, or fails when no reader recognises the stream.
`convert` decodes the image and applies the effect operations in order, each
to the previous one's output. When the reader's format name is exactly `jpeg`
or `jpg`, it strips alpha before and after the effects. It re-encodes in the
same format with the configured compression quality. The pipeline is also
given as a list of steps (`ConvertSteps`) with an interpreter (`Run`), and
`Convert` is proved against them.

Foreign code is abstract. The DAO, the sandbox helper, the regular-expression
full match, the field handlers, the image library (readers, decoding,
`stripAlpha`, writers, encoding) and the effects manager are function-typed
fields of the datatypes `Collaborators`, `FieldHandler`, `ImageCodec` and
`EffectsManager`. Decoded images are the abstract type `Image`. Streams are
byte sequences. Java `null` is `Option.None`, and an exception is
`Result.Failure`. `strings.dfy` gives `String.endsWith` and
`String.lastIndexOf` over `seq<char>`.

## Model

| member | source | states |
|---|---|---|
| `Strings.LastIndexOf` | admin/broadleaf-open-admin-platform/src/main/java/org/broadleafcommerce/openadmin/server/service/persistence/module/ListGridFetchFactoryImpl.java:68 | the result is -1 exactly when the pattern never occurs; otherwise the pattern occurs at the result and at no later index |
| `Strings.LastIndexOfSuffix` | admin/broadleaf-open-admin-platform/src/main/java/org/broadleafcommerce/openadmin/server/service/persistence/module/ListGridFetchFactoryImpl.java:67-68 | when the name ends with the pattern, its last occurrence starts at length minus pattern length |
| `ListGridFetch.StripImpl` | admin/broadleaf-open-admin-platform/src/main/java/org/broadleafcommerce/openadmin/server/service/persistence/module/ListGridFetchFactoryImpl.java:67-70 | a name ending in "Impl" loses exactly those four characters (name == result + "Impl"); any other name is unchanged |
| `ListGridFetch.StripImplRemovesOne` | admin/broadleaf-open-admin-platform/src/main/java/org/broadleafcommerce/openadmin/server/service/persistence/module/ListGridFetchFactoryImpl.java:67-70 | for every x, x + "Impl" normalises to x, so only one suffix is removed |
| `ListGridFetch.StripImplDoubled` | admin/broadleaf-open-admin-platform/src/main/java/org/broadleafcommerce/openadmin/server/service/persistence/module/ListGridFetchFactoryImpl.java:67-70 | "FooImplImpl" normalises to "FooImpl", and only a second normalisation gives "Foo" |
| `ListGridFetch.CacheKeySameIff` | admin/broadleaf-open-admin-platform/src/main/java/org/broadleafcommerce/openadmin/server/service/persistence/module/ListGridFetchFactoryImpl.java:65-72 | two names share a cache key if and only if they normalise to the same name |
| `ListGridFetch.CacheKeyShared` | admin/broadleaf-open-admin-platform/src/main/java/org/broadleafcommerce/openadmin/server/service/persistence/module/ListGridFetchFactoryImpl.java:65-72 | "X" and "XImpl" share a key if and only if "X" does not itself end with "Impl" |
| `ListGridFetch.AttemptToFindRegexTarget` | admin/broadleaf-open-admin-platform/src/main/java/org/broadleafcommerce/openadmin/server/service/persistence/module/ListGridFetchFactoryImpl.java:136-146 | null when the rule has no regex; the rule itself exactly when its regex matches the whole name; never another rule |
| `ListGridFetch.FirstMatchIndex` | admin/broadleaf-open-admin-platform/src/main/java/org/broadleafcommerce/openadmin/server/service/persistence/module/ListGridFetchFactoryImpl.java:96-107 | the found rule matches by exact target or regex and no earlier rule matches; nothing is found exactly when no rule matches |
| `ListGridFetch.FirstMatchIndexIs` | admin/broadleaf-open-admin-platform/src/main/java/org/broadleafcommerce/openadmin/server/service/persistence/module/ListGridFetchFactoryImpl.java:96-107 | a matching rule preceded only by non-matching rules is the one chosen |
| `ListGridFetch.EarlierRegexBeatsLaterExact` | admin/broadleaf-open-admin-platform/src/main/java/org/broadleafcommerce/openadmin/server/service/persistence/module/ListGridFetchFactoryImpl.java:96-107 | a regex match at position i wins over an exact match at a later position j |
| `ListGridFetch.FirstMatchIndexAppend` | admin/broadleaf-open-admin-platform/src/main/java/org/broadleafcommerce/openadmin/server/service/persistence/module/ListGridFetchFactoryImpl.java:96-107 | appending rules keeps a match found in the original list; otherwise the search continues into the appended rules, offset by the original length |
| `ListGridFetch.HandlerFieldsSnoc` | admin/broadleaf-open-admin-platform/src/main/java/org/broadleafcommerce/openadmin/server/service/persistence/module/ListGridFetchFactoryImpl.java:122-126 | one more handler appends its fields, if it accepts the entity, after those of the earlier handlers |
| `ListGridFetch.HandlerFieldsMembers` | admin/broadleaf-open-admin-platform/src/main/java/org/broadleafcommerce/openadmin/server/service/persistence/module/ListGridFetchFactoryImpl.java:122-126 | a field is contributed by the handlers if and only if some accepting handler lists it |
| `ListGridFetch.Resolve` | admin/broadleaf-open-admin-platform/src/main/java/org/broadleafcommerce/openadmin/server/service/persistence/module/ListGridFetchFactoryImpl.java:87-132 | entity class and sandbox flag always come from the DAO and the sandbox helper; the fetch is refined if and only if some rule matches; fetch fields are set only then, as universal ++ first matching rule's fields ++ accepting handlers' fields |
| `ListGridFetch.ResolvedFieldsOrigin` | admin/broadleaf-open-admin-platform/src/main/java/org/broadleafcommerce/openadmin/server/service/persistence/module/ListGridFetchFactoryImpl.java:115-128 | every fetched field is a universal field, a field of the matched rule, or a field of an accepting handler, and each of those is fetched |
| `ListGridFetch.Memoise` | admin/broadleaf-open-admin-platform/src/main/java/org/broadleafcommerce/openadmin/server/service/persistence/module/ListGridFetchFactoryImpl.java:73-81 | after a lookup the key holds the returned value; only that key may be added; existing entries are kept; a miss returns the created value |
| `ListGridFetch.MemoiseIdempotent` | admin/broadleaf-open-admin-platform/src/main/java/org/broadleafcommerce/openadmin/server/service/persistence/module/ListGridFetchFactoryImpl.java:73-83 | a second lookup under the same key returns the same value and leaves the cache unchanged, whatever it would have created |
| `ListGridFetch.ImplVariantHitsSameEntry` | admin/broadleaf-open-admin-platform/src/main/java/org/broadleafcommerce/openadmin/server/service/persistence/module/ListGridFetchFactoryImpl.java:65-83 | when "X" does not itself end with "Impl": after looking up "X", a lookup of "XImpl" hits the same entry and returns the same request |
| `ListGridFetch.ListGridFetchFactory.constructor` | admin/broadleaf-open-admin-platform/src/main/java/org/broadleafcommerce/openadmin/server/service/persistence/module/ListGridFetchFactoryImpl.java:41-55 | starts with no rules and no universal fields, over the given shared cache and handlers |
| `ListGridFetch.ListGridFetchFactory.GetListGridFetchRequest` | admin/broadleaf-open-admin-platform/src/main/java/org/broadleafcommerce/openadmin/server/service/persistence/module/ListGridFetchFactoryImpl.java:58-84 | a null or non-list-grid request gives null and leaves the cache unchanged; otherwise a hit returns the cached request with the cache unchanged, and a miss returns the created request and stores it under "refineFetch:" + normalised name; the pair (result, new cache) is `Memoise` of the old cache, so `MemoiseIdempotent` makes a repeated call return the same request |
| `ListGridFetch.ListGridFetchFactory.CreateListGridFetchRequest` | admin/broadleaf-open-admin-platform/src/main/java/org/broadleafcommerce/openadmin/server/service/persistence/module/ListGridFetchFactoryImpl.java:87-112 | the scan with early exit builds exactly the request `Resolve` specifies for the current rules, universal fields and handlers |
| `ListGridFetch.ListGridFetchFactory.SetAdditionalFieldsToListGridFetchRequest` | admin/broadleaf-open-admin-platform/src/main/java/org/broadleafcommerce/openadmin/server/service/persistence/module/ListGridFetchFactoryImpl.java:115-133 | with a rule: refined, with fields universal ++ rule's ++ accepting handlers' in order; without one: not refined, fields untouched; entity and sandbox flag kept |
| `ListGridFetch.ListGridFetchFactory.SetEntities` | admin/broadleaf-open-admin-platform/src/main/java/org/broadleafcommerce/openadmin/server/service/persistence/module/ListGridFetchFactoryImpl.java:159-167 | the getter then returns the new rules; nothing else, the cache included, changes |
| `ListGridFetch.ListGridFetchFactory.SetUniversalFetchFields` | admin/broadleaf-open-admin-platform/src/main/java/org/broadleafcommerce/openadmin/server/service/persistence/module/ListGridFetchFactoryImpl.java:149-157 | the getter then returns the new fields; nothing else, the cache included, changes |
| `ImageArtifact.AcceptsNothingWhenEmpty` | admin/BroadleafCommerceOpenAdminPlatform/src/main/java/org/broadleafcommerce/openadmin/server/service/artifact/image/ImageArtifactProcessor.java:34-41 | with an empty type list no file name is supported |
| `ImageArtifact.AcceptsDefaultExamples` | admin/BroadleafCommerceOpenAdminPlatform/src/main/java/org/broadleafcommerce/openadmin/server/service/artifact/image/ImageArtifactProcessor.java:30-41 | with the default types "xjpg" and "photo.jpeg" are supported; "photo.JPG" (case) and "notes.txt" are not |
| `ImageArtifact.RunRendersSnoc` | admin/BroadleafCommerceOpenAdminPlatform/src/main/java/org/broadleafcommerce/openadmin/server/service/artifact/image/ImageArtifactProcessor.java:77-79 | the effects run in array order: one more operation renders its effect on the image the earlier operations produced |
| `ImageArtifact.ConvertStepsShape` | admin/BroadleafCommerceOpenAdminPlatform/src/main/java/org/broadleafcommerce/openadmin/server/service/artifact/image/ImageArtifactProcessor.java:72-84 | for "jpeg"/"jpg" alpha is stripped exactly twice, as the first and the last step; otherwise never; the effects sit in between in operation order |
| `ImageArtifact.RunAppend` | admin/BroadleafCommerceOpenAdminPlatform/src/main/java/org/broadleafcommerce/openadmin/server/service/artifact/image/ImageArtifactProcessor.java:72-84 | running two step lists in turn, each on the previous output, equals running their concatenation |
| `ImageArtifact.NonJpegRunsEffectsOnly` | admin/BroadleafCommerceOpenAdminPlatform/src/main/java/org/broadleafcommerce/openadmin/server/service/artifact/image/ImageArtifactProcessor.java:73-84 | for any other format the conversion is the effect chain alone |
| `ImageArtifact.JpegStripsAroundEffects` | admin/BroadleafCommerceOpenAdminPlatform/src/main/java/org/broadleafcommerce/openadmin/server/service/artifact/image/ImageArtifactProcessor.java:73-84 | for "jpeg"/"jpg" the conversion is stripAlpha(effects(stripAlpha(image))) |
| `ImageArtifact.ImageArtifactProcessor.constructor` | admin/BroadleafCommerceOpenAdminPlatform/src/main/java/org/broadleafcommerce/openadmin/server/service/artifact/image/ImageArtifactProcessor.java:27-31 | default upload types gif, jpg, jpeg, png, bmp, wbmp and compression quality 0.9 |
| `ImageArtifact.ImageArtifactProcessor.IsSupported` | admin/BroadleafCommerceOpenAdminPlatform/src/main/java/org/broadleafcommerce/openadmin/server/service/artifact/image/ImageArtifactProcessor.java:34-41 | true if and only if some configured type is a suffix of the file name; the stream plays no part |
| `ImageArtifact.ImageArtifactProcessor.GetImageMetadata` | admin/BroadleafCommerceOpenAdminPlatform/src/main/java/org/broadleafcommerce/openadmin/server/service/artifact/image/ImageArtifactProcessor.java:48-62 | fails with the fixed message exactly when no reader exists; otherwise the first reader's width and height of image 0 |
| `ImageArtifact.ImageArtifactProcessor.Convert` | admin/BroadleafCommerceOpenAdminPlatform/src/main/java/org/broadleafcommerce/openadmin/server/service/artifact/image/ImageArtifactProcessor.java:64-101 | no reader: fails; otherwise the output is the encoding, in the format the first reader reported and with the configured quality, of the image after the steps `ConvertSteps` gives for that format; fails if that format has no writer |
| `ImageArtifact.ImageArtifactProcessor.SetSupportedUploadTypes` | admin/BroadleafCommerceOpenAdminPlatform/src/main/java/org/broadleafcommerce/openadmin/server/service/artifact/image/ImageArtifactProcessor.java:112-118 | the getter then returns the set list; the compression quality is unchanged |
| `ImageArtifact.ImageArtifactProcessor.SetCompressionQuality` | admin/BroadleafCommerceOpenAdminPlatform/src/main/java/org/broadleafcommerce/openadmin/server/service/artifact/image/ImageArtifactProcessor.java:120-126 | the getter then returns the set quality; the upload types are unchanged |

## Left out

- Regular-expression semantics: a full match is the abstract `regexMatches(regex, name)`. Pattern compilation and `PatternSyntaxException` are not modelled.
- Ehcache internals (eviction, expiry, element wrappers) and concurrent access to the shared cache are not modelled. The cache is a plain map.
- `ListGridFetchRequest` is a value, and `SetAdditionalFieldsToListGridFetchRequest` returns the updated value instead of mutating its argument. Aliasing between the cached object and later changes to it is not captured.
- Null collections and strings. Only a rule's two targets may be null in this model. Java throws `NullPointerException` when the file name passed to `isSupported` is null (unless the type list is empty), when the type list set by `setSupportedUploadTypes` is null, when the `operations` array of `convert` is null, and, on a cache miss, when the rule list is null, or when a rule matches and the universal fields or that rule's additional fields are null. These cases are outside the model's types.
- Aliasing of configuration. The Java setters keep the caller's `List` or array, and the getters hand out that same object, so a later change through either reference changes what the next lookup or `isSupported` sees. The model holds the rule list, the universal fields and the upload types as values, and does not capture such changes.
- The Java code of `ListGridFetchRequest` and `ListGridFetchEntity` is not part of this model; `FetchRequest` and `FetchEntity` stand for them. That a fresh request is not refined and has no fetch fields is an assumption.
- The DAO, the sandbox helper and the field handlers' `canHandleEntity` / `getUniversalFetchFields` are abstract functions. A null class from the DAO, and the `NullPointerException` that would follow, are not modelled. Neither is a null ceiling entity name.
- `buildOperations` only forwards to the effects manager, whose code is not part of this model. It is left out.
- The effects manager's `renderEffect`, `stripAlpha`'s colour conversion, ImageIO decoding and encoding, and pixel data are abstract. So are the stream objects. Java's `convert` wraps the same `InputStream` twice without a reset, so the reader probe may already have consumed bytes that `ImageIO.read` then does not see. The model hands the whole byte sequence to both `readers` and `read`.
- `ImageIO.read` returning null, and I/O exceptions from the readers and writers, are not modelled. `convert` models only the two `Iterator.next()` failures: no reader, and no writer for the format.
- `compressionQuality` is a `real`. The rounding of a Java `float` is not modelled, and neither is the explicit compression mode set on the writer.
- The getters `GetEntities`, `GetUniversalFetchFields`, `GetSupportedUploadTypes` and `GetCompressionQuality` return their field. They appear in the setters' contracts and have no contract of their own.
