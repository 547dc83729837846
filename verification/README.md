# FastFuels SDK client core, modelled in Dafny

This project models the client-side logic of the FastFuels Python SDK:
- building the request each call sends;
- waiting for a server-side resource to finish processing;
- interpreting the answers.

The network is a parameter: a polling loop sees the server as a function from the fetch number to either a resource snapshot or a raised API error. The clock is the count of fetches times the polling step. Nothing waits, prints or touches a file.

The modules follow the SDK's files:

- `Values`: shared types. JSON values with Python truthiness, the `Result`/`Option` wrappers and the `str | list[str]` arguments.
- `Polling`: the generic wait loop. `LeastK` gives the fetch number at which the deadline check first fires, and `StopsAt` is a declarative description of where the loop stops.
- `Resources`: resource handles.
  - `get(in_place=...)`.
  - The per-fetch in-place wait of the current API (inventories, features, point clouds, grids).
  - The replace-at-the-end wait of the legacy API (fuelgrids, treelists).
  - Replace (`self.__dict__ = ...`) versus merge (`self.__dict__.update(...)`).
  - Wrapping a response's sub-objects into handles.
- `Inventories`, `Features`, `PointCloud`, `Grids`: the current API's create calls, their waits, and the upload checks for inventory CSV files.
- `Legacy`, `Fuelgrids`, `Treelists`, `Datasets`: the legacy HTTP API. This covers validation, request bodies, URLs with query filters, status checks, refresh and update.
- `Domains`: the domain create body, `get`/`update` and the list call.
- `Utils`: `parse_dict_items_to_pydantic_list`.
- Grid builders:
  - `GridBuilders` holds what the three grid builders share: the attribute list, the configuration, deduplication at `build`, `clear` and `to_dict`;
  - `SurfaceGridBuilder`, `TopographyGridBuilder` and `TreeGridBuilder` hold the per-attribute source entries.
- `Exceptions`: `handle_response_status_code`, both as written and corrected (see Findings).
- `Exports`: the zarr-to-QUIC-Fire export. It covers the validation order, the first-layer overlays, the size scale and the axis order of the Fortran records.

## Model

| member | source | states |
|---|---|---|
| Values.AsList | fastfuels_sdk/inventories.py:242 | a string argument becomes the one-element list holding it; a list is kept as it is |
| Values.AsListIdempotent | fastfuels_sdk/inventories.py:242 | normalising an already normalised argument changes nothing |
| Values.StrArr | fastfuels_sdk/datasets.py:433-434 | a list of strings is sent as a JSON array of the same strings in the same order |
| Values.StrArrRoundTrip | fastfuels_sdk/datasets.py:433-434 | decoding the JSON array of a list of strings gives back that list |
| Values.OptStrArr | fastfuels_sdk/datasets.py:316-320 | an absent list is sent as JSON null, and only an absent list is |
| Values.OptNum | fastfuels_sdk/client_library/models/surface_grid_uniform_value_by_size_class.py:73-121 | an absent number is sent as JSON null, and only an absent number is |
| Values.GetStr | fastfuels_sdk/fuelgrids.py:478-483 | a body member is read back as a string exactly when it is present and is a string |
| Polling.LeastKIsLeast | fastfuels_sdk/inventories.py:812-819 | the deadline check fires first at fetch LeastK: LeastK steps reach the timeout and no smaller count does |
| Polling.BelowLeastK | fastfuels_sdk/inventories.py:815 | before fetch LeastK the elapsed time is still below the timeout |
| Polling.StopsAtUnique | fastfuels_sdk/inventories.py:812-824 | the stopping point of a wait is unique: there is at most one fetch count at which the loop can stop |
| Polling.Decide | fastfuels_sdk/pointcloud.py:301-315 | the fetch the loop stops on decides its end: the done status completes, the failure status (if any) fails, an API error is passed on, and a still-pending snapshot means the deadline was reached |
| Polling.Loop | fastfuels_sdk/inventories.py:814-822 | the loop continues while the snapshot is pending and the deadline has not passed; where it stops satisfies StopsAt, and the verdict and last snapshot are those of the last fetch |
| Polling.Wait | fastfuels_sdk/inventories.py:812-824 | the wait stops where StopsAt says; the verdict depends on the last response alone; the elapsed time is (fetches - 1) * step; the last snapshot is the last one fetched successfully |
| Polling.FirstResponseTerminal | fastfuels_sdk/inventories.py:813-814 | a resource already finished at the first fetch costs one fetch and no sleep |
| Polling.NeverTerminalTimesOut | fastfuels_sdk/inventories.py:815-816 | a resource that never finishes times out after exactly LeastK + 1 fetches |
| Polling.StopsAtFirstNonPending | fastfuels_sdk/inventories.py:814-819 | a resource that is pending for its first m fetches (m within the deadline) and then terminal stops after m + 1 fetches with that fetch's verdict |
| Polling.ScenarioCompletesOnFourthFetch | fastfuels_sdk/inventories.py:812-824 | queued, queued, running, completed: the wait returns the fourth snapshot after three steps |
| Polling.ScenarioAlwaysRunning | fastfuels_sdk/inventories.py:815-816 | with step 1 and timeout 3, a resource that is always running times out on the fourth fetch |
| Resources.Refreshed | fastfuels_sdk/inventories.py:718-722 | an in-place refresh keeps the handle's identity and takes the latest snapshot seen |
| Resources.Get | fastfuels_sdk/inventories.py:717-723 | `get` returns the fetched state; with in_place it returns self updated, otherwise a new handle, and self is untouched |
| Resources.GetModesAgree | fastfuels_sdk/inventories.py:717-723 | both modes of `get` return the same value, and an in-place get is idempotent |
| Resources.WaitFetching | fastfuels_sdk/pointcloud.py:300-323 | the current API's wait: returns only on the done status, raises RuntimeError on the failure status (checked before the deadline), TimeoutError when pending at the deadline, or the API error; with in_place every fetch updates self |
| Resources.LegacyRefresh | fastfuels_sdk/fuelgrids.py:85-104 | the legacy refresh: with inplace, self is replaced and None is returned; otherwise a new handle is returned |
| Resources.LegacyModesAgree | fastfuels_sdk/fuelgrids.py:85-104 | the state an in-place refresh installs is the handle the other mode returns |
| Resources.Merged | fastfuels_sdk/datasets.py:92-93 | `__dict__.update`: the fresh values win; old keys absent from the response survive |
| Resources.MergedIdempotent | fastfuels_sdk/datasets.py:92-93 | merging the same response a second time changes nothing |
| Resources.MergeIsReplaceWhenComplete | fastfuels_sdk/datasets.py:92-93 | when the response carries every old key, merging is the same as replacing |
| Resources.LegacyMerge | fastfuels_sdk/datasets.py:72-95 | the merging refresh: with inplace, self takes the merged state and None is returned |
| Resources.WaitReplacing | fastfuels_sdk/fuelgrids.py:106-153 | the legacy wait: self is unchanged during the loop; at the end it is replaced (returning None) or the new handle is returned; same failure, timeout and error cases as above |
| Resources.ConvertEntries | fastfuels_sdk/features.py:630-641 | only present, truthy members of the given kinds become handles, bound to the domain; all keys are kept |
| Resources.ConvertLosesNothing | fastfuels_sdk/features.py:630-641 | unwrapping the converted response gives back the response |
| Utils.ParseItems | fastfuels_sdk/utils.py:21-27 | None stays None; one dict becomes a one-element list; a list is parsed item by item in order |
| Utils.SingleDictAsList | fastfuels_sdk/utils.py:24-27 | a single dict and the one-element list holding it are parsed alike |
| Inventories.WaitUntilCompleted | fastfuels_sdk/inventories.py:812-824 | succeeds exactly when the last fetch is a "completed" inventory, and returns that snapshot; raises the inventory timeout exactly when the last fetch is still pending; the only other error is an API error; in place, self holds the last snapshot fetched |
| Inventories.CompletesOnFirstCompleted | fastfuels_sdk/inventories.py:814-824 | the first "completed" snapshot reached before the deadline is returned, after exactly as many fetches as it took to see it |
| Inventories.FailedIsNotTerminal | fastfuels_sdk/inventories.py:814-816 | an inventory that reports "failed" forever is waited on until the timeout |
| Inventories.CreateTreeInventory | fastfuels_sdk/inventories.py:241-263 | the request carries the listed sources, the parsed modifications and treatments, and the listed feature masks; with in_place only `tree` becomes the created inventory |
| Inventories.StringSourceIsSingletonList | fastfuels_sdk/inventories.py:242 | a string source and the one-element list holding it give the same call |
| Inventories.CreateTreeInventoryFromTreemap | fastfuels_sdk/inventories.py:426-446 | the TreeMap shortcut is the general call with the single source "TreeMap"; the canopy height map is configured exactly when its source is non-empty |
| Inventories.LastIndex | fastfuels_sdk/inventories.py:524 | the position of the last occurrence of a character, if any |
| Inventories.LastIndexBefore | fastfuels_sdk/inventories.py:524 | in before + c + after with no c in after, the last c is the one after `before` |
| Inventories.Parts | fastfuels_sdk/inventories.py:512 | `Path` splits a path at slashes and keeps only components that are neither empty nor "." |
| Inventories.Root | fastfuels_sdk/inventories.py:512 | the root `Path` keeps: exactly two leading slashes stay two, one or three and more become one |
| Inventories.Name | fastfuels_sdk/inventories.py:524 | the file name is the last kept component, or empty when there is none |
| Inventories.NameOfPlainName | fastfuels_sdk/inventories.py:524 | a single kept component is its own name |
| Inventories.PartsAfterSlash | fastfuels_sdk/inventories.py:512 | a component after a slash is added to the parts, unless it is empty or "." |
| Inventories.NameIgnoresTrailingSlash | fastfuels_sdk/inventories.py:512 | "data.csv/" has the name "data.csv" |
| Inventories.NameIgnoresTrailingDot | fastfuels_sdk/inventories.py:512 | "data.csv/." has the name "data.csv" |
| Inventories.NameAfterDirectory | fastfuels_sdk/inventories.py:524 | the name of dir/name is name, whatever the directory |
| Inventories.PartsOfSlashes | fastfuels_sdk/inventories.py:512 | a run of slashes has no components |
| Inventories.PartsOfJoined | fastfuels_sdk/inventories.py:512 | joining kept components under a root and splitting again gives the components back |
| Inventories.RootOfJoined | fastfuels_sdk/inventories.py:512 | a normal form keeps the root it was built with |
| Inventories.Normalised | fastfuels_sdk/inventories.py:512 | `str(Path(path))`: the printed form has the same root and the same components as the path, and is "." exactly when the path has neither |
| Inventories.NormalisedIdempotent | fastfuels_sdk/inventories.py:512 | printing a path and reading the printed text again gives the same text, the same components and the same name |
| Inventories.NormalisedOfPlainName | fastfuels_sdk/inventories.py:512 | a single kept component prints as itself |
| Inventories.Extension | fastfuels_sdk/inventories.py:524 | the suffix of a name: empty, or a '.' not at the start followed by a non-empty, dot-free extension that ends the name |
| Inventories.Suffix | fastfuels_sdk/inventories.py:524 | `Path.suffix`: the suffix of the path's name |
| Inventories.ExtensionOfName | fastfuels_sdk/inventories.py:524 | the suffix of the name `stem.ext` is `.ext` |
| Inventories.SuffixOfName | fastfuels_sdk/inventories.py:524 | the suffix of the path `stem.ext` is `.ext` |
| Inventories.Lower | fastfuels_sdk/inventories.py:524 | ASCII lower-casing: each character is mapped on its own and the length is kept; it agrees with `str.lower` on ASCII text only |
| Inventories.LowerOfUpperCsv | fastfuels_sdk/inventories.py:524 | ".CSV" lower-cases to ".csv", so upper-case extensions are accepted |
| Inventories.CheckUpload | fastfuels_sdk/inventories.py:512-525 | in order: a missing path raises FileNotFoundError, a size over 500 MiB raises ValueError, a lower-cased suffix other than ".csv" raises ValueError, each message showing the path as `Path` prints it; otherwise the upload proceeds |
| Inventories.TrailingSlashStillCsv | fastfuels_sdk/inventories.py:512-525 | a plain CSV name with a trailing slash is accepted, the slash being normalised away |
| Inventories.UploadLimitIsInclusive | fastfuels_sdk/inventories.py:519-521 | a file of exactly 500 MiB passes the size check, and one byte more fails it |
| Inventories.DotFileIsNotCsv | fastfuels_sdk/inventories.py:524-525 | a file named just ".csv" has no suffix and is rejected as not a CSV |
| Inventories.UpperCsvIsCsv | fastfuels_sdk/inventories.py:524 | any plain name ending ".CSV" passes the suffix check |
| Inventories.CsvSizeLimit | fastfuels_sdk/inventories.py:519-521 | for a present CSV file only the size decides, and the limit itself is allowed |
| Inventories.ConvertInventories | fastfuels_sdk/inventories.py:1015-1022 | only a present, truthy "tree" becomes a handle; the response is otherwise unchanged |
| Features.CreateFeature | fastfuels_sdk/features.py:153-206 | a string source becomes a one-element list; with in_place exactly the created layer changes, and the other layer is untouched |
| Features.CreateFeatureFromOsm | fastfuels_sdk/features.py:208-241 | the OSM shortcut is the general call with the single source "OSM" |
| Features.WaitUntilCompleted | fastfuels_sdk/features.py:446-457 | succeeds exactly when the last fetch is a "completed" feature, and returns that snapshot; raises the kind's timeout exactly when the last fetch is still pending; the only other error is an API error |
| Features.CompletesOnFirstCompleted | fastfuels_sdk/features.py:447-457 | the first "completed" snapshot reached before the deadline is returned, after exactly as many fetches as it took to see it |
| Features.ConvertFeatures | fastfuels_sdk/features.py:630-641 | only present, truthy "road" and "water" become handles; nothing is lost |
| PointCloud.CreateAlsPointCloud | fastfuels_sdk/pointcloud.py:170-185 | the sources are sent as given, without wrapping; with in_place `als` becomes the created point cloud |
| PointCloud.CreateModesAgree | fastfuels_sdk/pointcloud.py:176-185 | with and without in_place the same handle is created; in place it becomes `als`, otherwise self is unchanged |
| PointCloud.FailureText | fastfuels_sdk/pointcloud.py:304-311 | the message starts with the base text; the details follow after a blank line exactly when an error is present and its formatting is non-empty |
| PointCloud.WaitUntilCompleted | fastfuels_sdk/pointcloud.py:300-323 | succeeds exactly when the last fetch is "completed", and returns that snapshot; "failed" raises RuntimeError with the failure text, exactly when the last fetch reports "failed"; the timeout is raised exactly when the last fetch is still pending; otherwise an API error |
| PointCloud.CompletesOnFirstCompleted | fastfuels_sdk/pointcloud.py:300-323 | the first "completed" snapshot reached before the deadline is returned, after exactly as many fetches as it took to see it |
| PointCloud.FailureBeatsTimeout | fastfuels_sdk/pointcloud.py:303-315 | a failure seen at the deadline fetch raises RuntimeError, not TimeoutError |
| PointCloud.ConvertPointClouds | fastfuels_sdk/pointcloud.py:349-369 | only a present, truthy "als" becomes a handle; nothing is lost |
| Grids.WaitUntilCompleted | fastfuels_sdk/grids/topography_grid.py:156-172 | the grid waits return a grid exactly when the last fetch is "completed"; the only errors are the grid kind's timeout and API errors |
| Grids.FailedGridTimesOut | fastfuels_sdk/grids/tree_grid.py:143-159 | a grid that reports "failed" forever times out after LeastK + 1 fetches |
| Grids.WaitModesAgree | fastfuels_sdk/grids/feature_grid.py:155-171 | the in-place and copying waits make the same fetches and return the same snapshot |
| Legacy.Checked | fastfuels_sdk/fuelgrids.py:364-368 | a response is accepted exactly when it has the expected status; otherwise the status becomes the error |
| Legacy.FetchResult | fastfuels_sdk/fuelgrids.py:364-368 | an accepted response is the call's result and a rejected one is its error |
| Legacy.CollectionUrl | fastfuels_sdk/fuelgrids.py:393-399 | the collection URL extends the base and equals it exactly when no filter applies |
| Legacy.CollectionUrlRoundTrip | fastfuels_sdk/fuelgrids.py:393-399 | the filter can be read back from the URL |
| Legacy.CollectionUrlInjective | fastfuels_sdk/fuelgrids.py:393-399 | different filters give different URLs |
| Fuelgrids.WithDefaults | fastfuels_sdk/fuelgrids.py:223-231 | the documented defaults of `create_fuelgrid` |
| Fuelgrids.Validate | fastfuels_sdk/fuelgrids.py:299-308 | in order: the surface fuel source must be "LF_SB40", the interpolation one of nearest/zipper/linear/cubic, the distribution one of uniform/random/realistic; the first violation's message is raised |
| Fuelgrids.DefaultsAreValid | fastfuels_sdk/fuelgrids.py:223-308 | the defaults pass validation |
| Fuelgrids.Payload | fastfuels_sdk/fuelgrids.py:311-326 | the create body has exactly the eleven documented keys |
| Fuelgrids.PayloadRoundTrip | fastfuels_sdk/fuelgrids.py:311-326 | every argument can be read back from the create body |
| Fuelgrids.CreateFuelgrid | fastfuels_sdk/fuelgrids.py:299-337 | an invalid argument sends nothing; otherwise one POST to /fuelgrids carrying the arguments, accepted only with status 201 |
| Fuelgrids.UpdatePayload | fastfuels_sdk/fuelgrids.py:478-483 | name and description are sent exactly when they are not None, including the empty string |
| Fuelgrids.UpdatePayloadRoundTrip | fastfuels_sdk/fuelgrids.py:478-483 | the sent name and description read back as the arguments |
| Fuelgrids.UpdateFuelgrid | fastfuels_sdk/fuelgrids.py:478-494 | one PUT to /fuelgrids/{id} with the update body, accepted only with status 200 |
| Fuelgrids.FuelgridFilter | fastfuels_sdk/fuelgrids.py:393-399 | a dataset id that is not None wins over a treelist id; no filter without either |
| Fuelgrids.FuelgridsUrl | fastfuels_sdk/fuelgrids.py:393-399 | the list URL encodes exactly the filter above |
| Fuelgrids.EmptyDatasetIdStillFilters | fastfuels_sdk/fuelgrids.py:394-395 | an empty dataset id is not None and still produces the dataset query |
| Fuelgrids.Refresh | fastfuels_sdk/fuelgrids.py:85-104 | a refresh accepted on 200 replaces self (inplace) or returns the new fuelgrid |
| Fuelgrids.FailureText | fastfuels_sdk/fuelgrids.py:138-140 | the failure message names the fuelgrid |
| Fuelgrids.Fetches | fastfuels_sdk/fuelgrids.py:364-368 | each poll is a `get_fuelgrid` call with its 200 check |
| Fuelgrids.WaitUntilFinished | fastfuels_sdk/fuelgrids.py:106-153 | returns on "Finished", raises RuntimeError on "Failed" before the deadline check, and TimeoutError exactly when the last answer is a 200 with any other status; an HTTPError exactly when the last answer is not a 200; self changes only on success with inplace |
| Fuelgrids.FailedAtOnce | fastfuels_sdk/fuelgrids.py:137-140 | a fuelgrid failed at the first fetch raises at once |
| Treelists.CreatePayload | fastfuels_sdk/treelists.py:391-398 | the create body has exactly dataset_id, name, description and method |
| Treelists.CreatePayloadRoundTrip | fastfuels_sdk/treelists.py:391-398 | each argument reads back from the body |
| Treelists.CreateTreelist | fastfuels_sdk/treelists.py:391-407 | one POST to /treelists, accepted only with status 201 |
| Treelists.GetTreelist | fastfuels_sdk/treelists.py:441-452 | units other than metric and imperial raise before any request; otherwise a GET of the item URL with the units in the query, accepted on 200 |
| Treelists.GetTreelistUnitsRoundTrip | fastfuels_sdk/treelists.py:441-445 | accepted units read back unchanged from the query of the request URL |
| Treelists.UpdatePayload | fastfuels_sdk/treelists.py:567-573 | name and description are sent exactly when truthy |
| Treelists.UpdatePayloadRoundTrip | fastfuels_sdk/treelists.py:567-573 | the sent members read back as the truthy arguments |
| Treelists.UpdateTreelist | fastfuels_sdk/treelists.py:563-583 | ValueError exactly when both are None; otherwise a PATCH, accepted on 200 |
| Treelists.EmptyNameSendsEmptyBody | fastfuels_sdk/treelists.py:563-573 | an empty name passes the None check but sends an empty body |
| Treelists.TreelistFilter | fastfuels_sdk/treelists.py:476-479 | the dataset filter applies exactly when the dataset id is truthy |
| Treelists.TreelistsUrl | fastfuels_sdk/treelists.py:476-479 | the list URL encodes exactly that filter |
| Treelists.EmptyDatasetIdDoesNotFilter | fastfuels_sdk/treelists.py:476-479 | an empty dataset id lists everything, unlike the fuelgrid list |
| Treelists.DeleteTreelistUrl | fastfuels_sdk/treelists.py:666-668 | the delete URL carries the dataset query exactly when the dataset id is truthy |
| Treelists.Refresh | fastfuels_sdk/treelists.py:76-95 | sends exactly the request of `get_treelist(self.id)` in metric units; a non-200 status raises and leaves self; otherwise the treelist replaces self (inplace) or is returned as a new handle |
| Treelists.UpdateHandle | fastfuels_sdk/treelists.py:125-158 | sends exactly the request of `update_treelist(self.id, name, description)`; the ValueError for two None arguments and a non-200 status leave self unchanged; otherwise the response is merged into self (inplace) or returned |
| Treelists.UpdateHandleModesAgree | fastfuels_sdk/treelists.py:155-158 | in place, the handle ends with its old attributes overridden by exactly the treelist the other mode returns |
| Treelists.WaitUntilFinished | fastfuels_sdk/treelists.py:286-330 | returns exactly when the last answer is a 200 "Finished"; times out exactly when it is a 200 with any other status; raises the HTTPError, with its status, exactly when it is not a 200; there is no failure check |
| Treelists.UnfinishedTreelistTimesOut | fastfuels_sdk/treelists.py:316-319 | a treelist that answers 200 without "Finished" on every poll times out and leaves self unchanged |
| Treelists.FailedTreelistTimesOut | fastfuels_sdk/treelists.py:317-319 | a treelist that reports "Failed" forever is waited on until the timeout |
| Treelists.CreateFuelgridArgs | fastfuels_sdk/treelists.py:200-268 | the treelist's shortcut passes its own id, its dataset id and every other argument unchanged to `create_fuelgrid`, with no sparse array |
| Treelists.TreelistFuelgridsFilter | fastfuels_sdk/treelists.py:270-284 | a treelist lists its fuelgrids by the treelist filter |
| Datasets.NormalTags | fastfuels_sdk/datasets.py:66 | falsy tags (null, an empty list) become the empty list; truthy tags are kept, so the result is truthy exactly when the tags were |
| Datasets.NormalTagsIdempotent | fastfuels_sdk/datasets.py:66 | normalising twice is normalising once |
| Datasets.AsDataset | fastfuels_sdk/datasets.py:61-70 | `Dataset(**body)` keeps every member of the response except the tags, which are normalised |
| Datasets.AsDatasetIdempotent | fastfuels_sdk/datasets.py:61-70 | building a dataset from a dataset's own state changes nothing |
| Datasets.RefreshNeverStoresNullTags | fastfuels_sdk/datasets.py:66 | after a successful refresh, in place or returned, the handle's tags are never null, and falsy tags in the response become the empty list |
| Datasets.SpatialData | fastfuels_sdk/datasets.py:321-322 | a string is sent as a feature id; anything else is sent as the data |
| Datasets.CreatePayload | fastfuels_sdk/datasets.py:316-322 | the create body has exactly name, description, tags and spatial_data |
| Datasets.CreatePayloadRoundTrip | fastfuels_sdk/datasets.py:315-323 | name, description and spatial data read back from the body; tags are null exactly when not given |
| Datasets.CreateDataset | fastfuels_sdk/datasets.py:315-333 | one POST to /datasets, accepted only with status 201, returning the response as a dataset |
| Datasets.UpdatePayload | fastfuels_sdk/datasets.py:428-434 | name, description and tags are sent exactly when truthy |
| Datasets.UpdateDataset | fastfuels_sdk/datasets.py:423-445 | ValueError exactly when all three are None; otherwise a PATCH, accepted on 200, returning the response as a dataset |
| Datasets.EmptyTagsSendEmptyBody | fastfuels_sdk/datasets.py:423-434 | empty tags pass the None check but send an empty body |
| Datasets.GetDataset | fastfuels_sdk/datasets.py:336-365 | one GET of the dataset's URL, accepted only with status 200, returning the response as a dataset |
| Datasets.Refresh | fastfuels_sdk/datasets.py:72-95 | sends exactly the request of `get_dataset(self.id)`; a non-200 status raises and leaves self; otherwise the response, as a dataset, is merged into self (inplace) or returned as a new handle |
| Datasets.RefreshIdempotent | fastfuels_sdk/datasets.py:91-93 | refreshing in place twice with the same answer leaves self as one refresh does |
| Datasets.UpdateHandle | fastfuels_sdk/datasets.py:97-133 | sends exactly the request of `update_dataset(self.id, ...)`; the ValueError for three None arguments and a non-200 status leave self unchanged; otherwise the response, as a dataset, is merged into self (inplace) or returned |
| Datasets.CreateTreelist | fastfuels_sdk/datasets.py:135-166 | the dataset's shortcut is the treelist create call with the dataset's id |
| Datasets.DatasetFilters | fastfuels_sdk/datasets.py:168-212 | a dataset always lists its fuelgrids by its id, but lists its treelists by its id only when the id is non-empty |
| Domains.CreateBody | fastfuels_sdk/domains.py:40-46 | the GeoJSON members are kept, and name, description and both resolutions override any GeoJSON member of the same name |
| Domains.CreateBodyIdempotent | fastfuels_sdk/domains.py:40-46 | building the body from a body gives the same body |
| Domains.Get | fastfuels_sdk/domains.py:113-122 | with in_place every fetched attribute overwrites self's, and self is returned; otherwise a new domain is returned |
| Domains.UpdateBody | fastfuels_sdk/domains.py:176-182 | each field is sent exactly when it is not None |
| Domains.Update | fastfuels_sdk/domains.py:175-201 | no field sends no request and returns self or a copy; otherwise the response updates self (in_place) or becomes a new domain |
| Domains.UpdateAppliesPatch | fastfuels_sdk/domains.py:185-195 | an in-place update by a server that applies the patch leaves self equal to the old attributes overridden by the patch |
| Domains.ChainedUpdatesAccumulate | fastfuels_sdk/domains.py:185-195 | two in-place updates accumulate both patches, the later one winning |
| Domains.ListDomains | fastfuels_sdk/domains.py:260-264 | page and size are passed through; a sort field or order is sent only when truthy |
| Domains.ListDomainsIdempotent | fastfuels_sdk/domains.py:260-264 | listing again with a request's own arguments gives the same request |
| Domains.EmptySortIsNoSort | fastfuels_sdk/domains.py:260 | an empty sort field is the same as none |
| GridBuilders.New | fastfuels_sdk/grids/surface_grid_builder.py:32-35 | a new builder has no attributes and an empty configuration |
| GridBuilders.With | fastfuels_sdk/grids/surface_grid_builder.py:37-59 | a setter appends its attribute once, sets its own entry, and leaves every other entry unchanged |
| GridBuilders.LastSettingWins | fastfuels_sdk/grids/surface_grid_builder.py:37-59 | setting one entry twice leaves the second value |
| GridBuilders.DifferentEntriesCommute | fastfuels_sdk/grids/surface_grid_builder.py:37-59 | setters of different entries give the same configuration in either order |
| GridBuilders.Clear | fastfuels_sdk/grids/surface_grid_builder.py:605-609 | clearing gives a fresh builder for the same domain |
| GridBuilders.Dedup | fastfuels_sdk/grids/surface_grid_builder.py:601 | the deduplicated attributes are distinct and are exactly the requested ones |
| GridBuilders.DedupOfDistinct | fastfuels_sdk/grids/surface_grid_builder.py:601 | a list that is already distinct is kept |
| GridBuilders.RepeatIsAbsorbed | fastfuels_sdk/grids/surface_grid_builder.py:601 | an attribute repeated at the end is requested once |
| GridBuilders.Build | fastfuels_sdk/grids/surface_grid_builder.py:588-603 | build requests every configured attribute exactly once, with the configuration as it stands |
| GridBuilders.RepeatedSetterBuildsOnce | fastfuels_sdk/grids/surface_grid_builder.py:588-603 | calling the same setter twice builds the same request as calling it once |
| GridBuilders.ToDict | fastfuels_sdk/grids/surface_grid_builder.py:611-616 | the dict holds domain_id, attributes and every configuration entry |
| GridBuilders.ToDictRoundTrip | fastfuels_sdk/grids/surface_grid_builder.py:611-616 | the builder can be read back from its dict |
| GridBuilders.DropNulls | fastfuels_sdk/client_library/models/surface_grid_uniform_value_by_size_class.py:73-121 | `to_dict` drops None members except the nullable ones, and keeps everything else |
| GridBuilders.DropNullsIdempotent | fastfuels_sdk/client_library/models/surface_grid_uniform_value_by_size_class.py:73-121 | dropping twice is dropping once |
| SurfaceGridBuilder.Uniform | fastfuels_sdk/grids/surface_grid_builder.py:37-59 | a uniform source carries "uniform", its value exactly when not null, and feature masks only when given |
| SurfaceGridBuilder.BySizeClass | fastfuels_sdk/grids/surface_grid_builder.py:61-122 | the by-size-class source keeps the five size classes and groups even when null, each equal to its argument |
| SurfaceGridBuilder.Landfire | fastfuels_sdk/grids/surface_grid_builder.py:124-185 | a LANDFIRE source carries its product, version and interpolation; optional lists appear exactly when given; extra members appear exactly when not null |
| SurfaceGridBuilder.CuringMembers | fastfuels_sdk/grids/surface_grid_builder.py:124-185 | the fuel-load LANDFIRE source adds exactly the two curing values and the groups |
| SurfaceGridBuilder.WithUniformFuelLoad | fastfuels_sdk/grids/surface_grid_builder.py:37-59 | sets fuel_load to a uniform source and requests fuelLoad |
| SurfaceGridBuilder.UniformFuelLoadWithoutMasks | fastfuels_sdk/grids/surface_grid_builder.py:37-59 | with no masks the entry has only source and value |
| SurfaceGridBuilder.WithUniformFuelLoadBySizeClass | fastfuels_sdk/grids/surface_grid_builder.py:61-122 | sets fuel_load to the by-size-class source with nullable classes kept |
| SurfaceGridBuilder.WithFuelLoadFromLandfire | fastfuels_sdk/grids/surface_grid_builder.py:124-185 | sets fuel_load to the LANDFIRE source with its curing members |
| SurfaceGridBuilder.LandfireFuelLoadCarriesCuring | fastfuels_sdk/grids/surface_grid_builder.py:124-185 | the LANDFIRE fuel-load entry carries both curing values |
| SurfaceGridBuilder.WithUniformFuelDepth | fastfuels_sdk/grids/surface_grid_builder.py:187-211 | sets fuel_depth uniformly and requests fuelDepth |
| SurfaceGridBuilder.WithFuelDepthFromLandfire | fastfuels_sdk/grids/surface_grid_builder.py:213-259 | sets fuel_depth from LANDFIRE |
| SurfaceGridBuilder.WithUniformFuelMoisture | fastfuels_sdk/grids/surface_grid_builder.py:262-289 | sets fuel_moisture uniformly |
| SurfaceGridBuilder.WithUniformFuelMoistureBySizeClass | fastfuels_sdk/grids/surface_grid_builder.py:291-347 | sets fuel_moisture by size class |
| SurfaceGridBuilder.WithUniformFbfm | fastfuels_sdk/grids/surface_grid_builder.py:349-373 | sets FBFM uniformly |
| SurfaceGridBuilder.WithFbfmFromLandfire | fastfuels_sdk/grids/surface_grid_builder.py:375-421 | sets FBFM from LANDFIRE |
| SurfaceGridBuilder.WithUniformSavr | fastfuels_sdk/grids/surface_grid_builder.py:423-450 | sets SAVR uniformly |
| SurfaceGridBuilder.WithSavrFromLandfire | fastfuels_sdk/grids/surface_grid_builder.py:489-540 | sets SAVR from LANDFIRE |
| SurfaceGridBuilder.ActionList | fastfuels_sdk/grids/surface_grid_builder.py:574-575 | a single action becomes a one-element list |
| SurfaceGridBuilder.ConditionList | fastfuels_sdk/grids/surface_grid_builder.py:576-579 | falsy conditions become the empty list; a single condition a one-element list |
| SurfaceGridBuilder.Modification | fastfuels_sdk/grids/surface_grid_builder.py:573-584 | an entry has exactly actions and conditions; a list of actions is kept and one action wrapped; the conditions are empty exactly when the argument is falsy, and a non-empty list is kept |
| SurfaceGridBuilder.ModificationIdempotent | fastfuels_sdk/grids/surface_grid_builder.py:573-584 | rebuilding an entry from its own actions and conditions gives the same entry |
| SurfaceGridBuilder.WithModification | fastfuels_sdk/grids/surface_grid_builder.py:542-586 | a modification is appended to the list and requests no attribute |
| SurfaceGridBuilder.ModificationsAccumulate | fastfuels_sdk/grids/surface_grid_builder.py:581-585 | two modifications are appended after the earlier ones, in call order |
| SurfaceGridBuilder.NoConditionsIsEmptyList | fastfuels_sdk/grids/surface_grid_builder.py:576-577 | a modification without conditions gets an empty condition list |
| SurfaceGridBuilder.ResettingFuelLoadBuildsOnce | fastfuels_sdk/grids/surface_grid_builder.py:588-603 | setting fuel load uniformly, then from LANDFIRE, builds the same request as LANDFIRE alone |
| TopographyGridBuilder.WithElevationFrom | fastfuels_sdk/grids/topography_grid_builder.py:27-47 | elevation from 3DEP or LANDFIRE with an interpolation method |
| TopographyGridBuilder.WithUniformElevation | fastfuels_sdk/grids/topography_grid_builder.py:49-58 | a uniform elevation |
| TopographyGridBuilder.AspectEntry | fastfuels_sdk/client_library/models/topography_grid_landfire_source_aspect.py:29-31 | the aspect entry names its source and interpolation method "nearest"; it carries version "2020" exactly when the source is LANDFIRE, and no other key |
| TopographyGridBuilder.WithAspectFrom | fastfuels_sdk/grids/topography_grid_builder.py:60-80 | aspect is set to the entry the source class fills in from the source alone, and requested |
| TopographyGridBuilder.AspectIsNearest | tests/grids/test_topography_grid_builder.py:193-210 | whichever setter was called, the aspect entry asks for nearest interpolation and names LANDFIRE exactly when the LANDFIRE setter made it |
| TopographyGridBuilder.WithSlopeFrom | fastfuels_sdk/grids/topography_grid_builder.py:82-102 | slope from 3DEP or LANDFIRE with an interpolation method |
| TopographyGridBuilder.FullTopographyBuild | fastfuels_sdk/grids/topography_grid_builder.py:104-119 | all three setters build one request per attribute |
| TreeGridBuilder.WithBulkDensityFromTreeInventory | fastfuels_sdk/grids/tree_grid_builder.py:28-41 | bulk density from the tree inventory |
| TreeGridBuilder.WithUniformBulkDensity | fastfuels_sdk/grids/tree_grid_builder.py:43-63 | uniform bulk density |
| TreeGridBuilder.WithSpcdFromTreeInventory | fastfuels_sdk/grids/tree_grid_builder.py:65-78 | species code from the tree inventory |
| TreeGridBuilder.WithUniformFuelMoisture | fastfuels_sdk/grids/tree_grid_builder.py:80-98 | uniform fuel moisture |
| TreeGridBuilder.BulkDensitySettersReplace | fastfuels_sdk/grids/tree_grid_builder.py:100-115 | the last bulk-density setter decides, and the attribute is requested once |
| TreeGridBuilder.ClearForgetsEverything | fastfuels_sdk/grids/tree_grid_builder.py:117-121 | after clear the builder behaves like a new one |
| Exceptions.DetailAsWritten | fastfuels_sdk/exceptions.py:46-49 | the detail is the "detail" member of a JSON object, or the raw text; any other JSON value escapes as TypeError, and bytes that are not UTF-8 escape as UnicodeDecodeError |
| Exceptions.HandleStatusAsWritten | fastfuels_sdk/exceptions.py:43-56 | as written: nothing for the expected status; a non-object JSON body raises TypeError, and an undecodable body UnicodeDecodeError, before the status is looked at |
| Exceptions.ServerErrorWithUndecodableBodyRaisesUnicodeError | fastfuels_sdk/exceptions.py:46-56 | a 500 whose body is the byte 0xFF raises UnicodeDecodeError as written, where `UnexpectedStatus(500, …)` is intended |
| Exceptions.UnauthorizedWithListBodyRaisesTypeError | fastfuels_sdk/exceptions.py:46-52 | a 401 with body `[]` raises TypeError instead of the authentication error |
| Exceptions.DetailOf | fastfuels_sdk/exceptions.py:46-49 | the corrected detail: the "detail" member when there is one, else the raw text, or the raw bytes exactly when they are not text |
| Exceptions.HandleStatus | fastfuels_sdk/exceptions.py:43-56 | corrected: nothing exactly for the expected status; 401 is the authentication error; 422 the validation error with the detail; anything else the unexpected status with code and detail |
| Exceptions.AsWrittenAgreesOnHandledBodies | fastfuels_sdk/exceptions.py:43-56 | on text bodies and JSON objects the two definitions agree |
| Exceptions.AsWrittenDiffersOnlyWhenEscaping | fastfuels_sdk/exceptions.py:43-56 | the two definitions differ exactly on an unexpected status whose body makes the lookup as written escape |
| Exports.FirstMissingGroup | fastfuels_sdk/exports.py:505-509 | the first required group, in order, that the store lacks |
| Exports.Pairs | fastfuels_sdk/exports.py:511-513 | the (group, array) requirements in iteration order |
| Exports.FirstMissingArray | fastfuels_sdk/exports.py:511-516 | the first required array, in order, missing from its group |
| Exports.Validate | fastfuels_sdk/exports.py:484-516 | the store passes exactly when every group and array is present; all groups are checked before any array, and the first missing one is named |
| Exports.MissingSurfaceReportedFirst | fastfuels_sdk/exports.py:81-86 | a store without the surface group is rejected for that group |
| Exports.SizeScale | fastfuels_sdk/exports.py:116 | `2 / sav`, with a zero SAV giving 0 |
| Exports.SizeScaleInvolution | fastfuels_sdk/exports.py:116 | the size scale of the size scale is the SAV |
| Exports.OverlayLayer0 | fastfuels_sdk/exports.py:97-114 | layer 0 combines canopy and surface; every other layer is the canopy's |
| Exports.Zeros | fastfuels_sdk/exports.py:108 | zeros in the canopy's shape |
| Exports.ScaleGrid | fastfuels_sdk/exports.py:116 | the size scale cell by cell |
| Exports.MoveAxis | fastfuels_sdk/exports.py:473-475 | shape (y, x, z) becomes (z, y, x) with `out[k][i][j] == in[i][j][k]` |
| Exports.MoveAxisBack | fastfuels_sdk/exports.py:473-475 | the inverse permutation |
| Exports.Box3Extensional | fastfuels_sdk/exports.py:473-475 | two grids of one shape with the same cells are equal |
| Exports.MoveAxisRoundTrip | fastfuels_sdk/exports.py:473-475 | moving the axis and back gives the grid unchanged |
| Exports.DatRecord | fastfuels_sdk/exports.py:466-481 | a 3-D array is written with its axes permuted; any other array is written as it is |
| Exports.Overlaid | fastfuels_sdk/exports.py:97-105 | an overlay keeps the canopy's shape |
| Exports.FuelDepth | fastfuels_sdk/exports.py:108-109 | the fuel-depth grid has the canopy's shape |
| Exports.SizeScaleGrid | fastfuels_sdk/exports.py:114-116 | the size-scale grid has the canopy's shape |
| Exports.ValidStoreHasQuicFireArrays | fastfuels_sdk/exports.py:81-94 | a validated store has every group and array the export reads |
| Exports.WriteQuicFire | fastfuels_sdk/exports.py:96-121 | the five files are written in order; a grid the overlay cannot combine stops the export after the files before it |
| Exports.WrittenFilesNamedInOrder | fastfuels_sdk/exports.py:96-121 | each written file carries its QUIC-Fire name in the fixed order |
| Exports.ExportQuicFire | fastfuels_sdk/exports.py:81-121 | a store that fails validation writes nothing and reports the message; otherwise the writing steps run |
| Exports.RhofFile | fastfuels_sdk/exports.py:96-100 | treesrhof.dat holds the bulk density with z leading; layer 0 is canopy plus surface, higher layers are the canopy's |
| Exports.MoistFile | fastfuels_sdk/exports.py:102-105 | treesmoist.dat holds the moisture with z leading; layer 0 is the surface's, higher layers are the canopy's |
| Exports.DepthFile | fastfuels_sdk/exports.py:107-111 | treesfueldepth.dat has the canopy's shape with z leading; layer 0 is the surface depth, higher layers are zero |
| Exports.SsFile | fastfuels_sdk/exports.py:113-117 | treesss.dat holds the size scale with z leading, of the surface SAV in layer 0 and of the canopy SAV above |
| Exports.TopoFile | fastfuels_sdk/exports.py:119-121 | topo.dat holds the elevation model, unchanged when two-dimensional |

## Left out

- Network, sleeping, clocks, printing and file I/O. The server is a function from fetch number to response. Time is the fetch count times the step. Verbose output is not modelled. `download_zarr`, `get_data`/`get_treelist_data`, `update_data`/`update_treelist_data`, the inventory export calls and the `delete*` calls apart from their URLs are transport only and are not modelled. Response bodies are taken as already parsed. The legacy modules raise `HTTPError(response.json())` on an unexpected status, so an error body that is not JSON raises `JSONDecodeError` there instead; that is not modelled.
- Polling.Wait: requires a positive step. The SDK does not check the step: a zero step never advances the clock and polls forever, and a negative step is nonsense. Floating-point steps and timeouts are modelled with whole-number steps.
- Non-positive intervals: the SDK raises no configuration error for them, and its `TimeoutError` carries no snapshot, so the model has neither.
- `from_domain_id`, the container `get` calls and `get_domain`/`get_fuelgrid`/`list_*` beyond their URLs and status checks. These build a handle from a response in the same way as the calls that are modelled.
- Enum validation inside the generated client models (tree map version, sort fields, source names) is not part of this model. Pydantic's checks on request bodies are not part of it either. The generated models of most surface sources are not visible, so those sources are assumed to have no nullable members. `SurfaceGridAttribute` values are taken as the strings the API documents ("fuelLoad", "fuelDepth", …).
- `format_processing_error` is not part of this model. It is a parameter of the point-cloud failure text.
- GridBuilders.Dedup: `list(set(...))` has no defined order in Python. The model keeps the order of first request, and its contract promises only distinctness and the same members.
- Exports: floating point is modelled with reals. NaN inputs and float32 rounding are not modelled. NumPy broadcasting of smaller surface grids is not modelled: any surface grid not exactly (y, x) is one shape error. The DUET and FDS exports are left out.
- Exports.Validate: requires every group named in the array requirements to be among the required groups, as in every exporter's constants. Otherwise the source would raise `KeyError`.
- Inventories.CheckUpload: paths are read as POSIX paths. Windows separators and drive letters are not modelled.
- Inventories.Lower: lower-cases ASCII letters only. Python's `str.lower` folds every Unicode letter and can change the length ('İ' becomes two characters). No non-ASCII character lower-cases to '.', 'c', 's' or 'v', so whether a suffix is ".csv" comes out the same.
- TopographyGridBuilder.AspectEntry: the 3DEP aspect source class is not part of this model. Its entry has the source and interpolation method "nearest", which is what the builder tests check. Any other default that class fills in is not modelled.
- TopographyGridBuilder.WithElevationFrom: the elevation source classes are not part of this model. The entry holds the source and interpolation method, which is what the builder tests check. A version default that the LANDFIRE class may add is not modelled.
- TopographyGridBuilder.WithSlopeFrom: the same as elevation. The slope source classes are not part of this model, and a version default of the LANDFIRE class is not modelled.
- Datasets.AsDataset: a response without a "tags" member makes `Dataset(**...)` raise `TypeError`. The model keeps such a body as it is.
- Exports.ExportQuicFire: requires every array to have the shape it declares, which a zarr array always does.

## Findings

| source | as written | input that shows it | evidently intended | confidence | as-written member | corrected member |
|---|---|---|---|---|---|---|
| fastfuels_sdk/exceptions.py:46-49 | the detail lookup catches only JSON decode errors and a missing key, so a body that decodes to a list, string, number or null raises `TypeError` before the status is mapped | status 401 (expected 200) with body `[]` | 401 raises the authentication error, 422 the validation error and any other status `UnexpectedStatus`, whatever the body | medium, not executed | Exceptions.HandleStatusAsWritten | Exceptions.HandleStatus |
| fastfuels_sdk/exceptions.py:47-49 | `json.loads` on bytes that are not valid UTF-8 raises `UnicodeDecodeError`, which is not a `JSONDecodeError`, and the fallback `.decode("utf-8")` would raise it too; so it escapes before the status is mapped | status 500 (expected 200) with the one-byte body 0xFF | any status other than 401 and 422 raises `UnexpectedStatus` with the raw content as detail, whatever the body | medium, not executed | Exceptions.ServerErrorWithUndecodableBodyRaisesUnicodeError | Exceptions.HandleStatus |
