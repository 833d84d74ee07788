# TrainCompany tools, modelled in Dafny

TrainCompany-tools is a set of Python scripts that curate the data files of the train game TrainCompany: its station list, its paths between stations, its trains and its tasks. This project models the deterministic core of those scripts. Each Dafny module corresponds to one source module.

- **Station codes.** `Stations` covers the de-duplicating `CodeList` with its derived variants, the station group, platform figures, `merge_stations` and `TcStation.from_station`. `Countries` covers the country prefixes of a code (RIL100 pseudo-prefixes, flags, `XX:` prefixes, UIC digits) and the compatible code format.
- **Tracks, routes and paths.** `Routes` covers `merge_tracks`, the `TrackKind` order, splitting a waypoint route into per-stop paths, hoisting shared attributes and `to_dict`. `RouteData` and `DbStrecken` cover the "ab X bis Y km/h" speed text. `DbTrassenfinder` covers kilometre-interval track selection. `ConvertTrasse` covers segment accumulation and platform counting.
- **Routing graph and path suggestions.** `Graphs` is an undirected graph as a value (one edge per pair of ends, self-loops allowed). `PathGraph` covers `build_tc_graph`, `graph_from_files` and the path-suggestion configuration. `ShortestPaths` joins per-leg shortest paths and filters trivial nodes; the shortest-path algorithm itself is an oracle parameter. `UpdatePaths` covers the `pathSuggestion` update and removal rules.
- **Tasks.** `Tasks` covers `shortest_path`, `uses_sfs`, `cleanup_task` and `extract_remaining_subtask_from_task`. `TaskMerge` covers `merge_task_dicts`. `Expansion` and `CreateTasks` cover sub-record expansion and the ordered insertion of new tasks before the first group-0 entry.
- **Validation.** `Validation` states the scoring rules of `validate`, stage by stage, as a total over the records. The blocking rules add 10000 and the soft rules add small amounts.
- **Importers and file updates.** The station importers are `FrStations`, `UkStations`, `ChBetriebsstellen`, `DbBahnhoefe`, `ChBahnhofsbenutzer` and `BrouterNew`. `StationFile` and `PathFile` insert stations and paths into a loaded data file (`TcFiles.TcFile`). `CompactJson`, `Cleanup` and `Formatting` are the JSON transforms.

Python's exceptions are modelled as the `Err` side of a `Result`, with the exception's kind. Python's string and dictionary built-ins live in the helper modules `Text` and `Json`. Code that loops or changes state is a `method`. Each such method is proved against the function that specifies it, and the lemmas state what the source promises about that function.

## Model

| member | source | states |
|---|---|---|
| Json.Get | update_path_suggestions.py:28 | `get` gives the value under the key, and None exactly when the key is missing |
| Json.WithoutNulls | tc_utils/stations.py:33 | the comprehension keeps exactly the keys whose value is not None, with their values |
| Json.Remove | create_tasks.py:43 | after `pop` the dictionary has every other key with its value, and not the popped one |
| Json.Canonical | validation/__init__.py:182 | `==` compares numbers by their value: a boolean or an integer is seen as the number it stands for, any other value as itself |
| Json.PyEqMeaning | validation/__init__.py:182 | a number equals exactly the values of the same numeric value (`True == 1 == 1.0`); any other value equals only itself |
| Json.Less | validation/shortest_paths.py:14 | `<` gives a result exactly when both values are numbers, and raises TypeError otherwise |
| Text.Drop | structures/country.py:191 | `code[2:]` drops the first two characters, and is empty for a shorter string |
| Text.BeforeFirst | structures/station.py:22 | `split(' ')[0]` is a prefix without a space, the whole string exactly when there is no space |
| Text.CollapseKeepsFirstToken | structures/station.py:18-22 | collapsing double spaces keeps the text before the first space, and whether there is a space |
| Text.Lower | structures/country.py:33 | `lower` maps each character to its lower-case form, keeping the length |
| Text.LowerPair | structures/country.py:169 | on a two-letter code `lower` acts on each of its two characters |
| Text.Upper | structures/country.py:37 | `upper` maps each character to its upper-case form, keeping the length |
| Text.Title | importers/uk_stations.py:22 | `title` keeps the length |
| Text.TitleFrom | importers/uk_stations.py:22 | a letter that follows a letter becomes lower case, any other letter upper case |
| Text.StripLeft | tc_utils/formatting.py:28 | the leading whitespace is removed and nothing else |
| Text.StripRight | tc_utils/formatting.py:28 | the trailing whitespace is removed and nothing else |
| Text.Strip | tc_utils/formatting.py:28 | the stripped text neither starts nor ends with whitespace |
| Text.StripUnchanged | tc_utils/formatting.py:28 | a string that neither starts nor ends with whitespace is left as it is |
| Text.NatToString | importers/brouter_new.py:273 | `str` of a natural number is a non-empty digit string without a leading zero, unless the number is zero |
| Text.NatToStringRoundTrip | importers/brouter_new.py:273 | the digits `str` writes have the number's value |
| Text.ParseInt | route_data.py:24 | `int` succeeds exactly when the stripped text is an optional sign followed by at least one digit |
| Text.ParseIntOfString | route_data.py:24 | `int` reads back every integer that `str` writes |
| Text.ParseReal | importers/fr_stations.py:32-33 | `float` succeeds only on text with at least one digit after the optional sign |
| Text.ParseRealOfDigits | importers/fr_stations.py:32-33 | `float` reads a string of digits as their value |
| Text.ParseRealWhole | importers/fr_stations.py:32-33 | `float` reads unsigned, stripped text without a '.' as the value of its digits |
| Text.ParseRealOfNat | importers/fr_stations.py:32-33 | `float` reads back the digits `str` writes for a natural number |
| Text.Trunc | convert_trasse.py:227 | `int` of a float truncates toward zero and stays within one of the value |
| Stations.CodeList.Append | structures/station.py:14-29 | the new items are `Appended(old items, code)`, whose lemmas below state what an append does |
| Stations.CodeList.Extend | structures/station.py:31-33 | the new items are the old ones with each code appended in turn (`Extended`) |
| Stations.AppendedExtends | structures/station.py:14-16 | an append keeps every earlier element in place; the code is present afterwards and, when it was absent, is the next element |
| Stations.AppendedAddsVariants | structures/station.py:17-24 | a new code containing a double space brings its single-space form, and one containing a space its part before the first space |
| Stations.AppendedAddsAliases | structures/station.py:8-29 | when the (possibly derived) code is a member of an alias group, every other member of the group is present afterwards |
| Stations.AppendedStaysDistinct | structures/station.py:15-24 | a list without duplicates stays without duplicates when no alias group is involved |
| Stations.AppendedCanDuplicate | structures/station.py:25-29 | the alias append skips the membership test: appending "EMST" to ["EMSTP", "EMST"] yields ["EMSTP", "EMST", "EMSTP"] |
| Stations.ExtendedExtends | structures/station.py:31-33 | extending keeps every earlier element in place and every extended code is present afterwards |
| Stations.AppendOthersExtends | structures/station.py:27-29 | appending a group's other members keeps the list as a prefix and adds every member but the probe |
| Stations.AppendAliasesExtends | structures/station.py:25-29 | the alias loop over all groups keeps the list as a prefix and adds the partners of every group holding the probe |
| Stations.WithVariantsExtends | structures/station.py:15-24 | the membership-checked part of `append` keeps the list as a prefix, adds the code, its single-space form and its first token, and keeps a duplicate-free list duplicate-free |
| Stations.AddIfAbsentDistinct | structures/station.py:15-16 | adding only when absent keeps a list duplicate-free, and a plain append does so exactly when the element was absent |
| Stations.Group | structures/station.py:49-68 | the group is in {0..5}: 0 exactly for category 1-2, 1 for 3, 2 for 4-6, 5 for 7; otherwise 4 for an 'abzw' kind (any case) and 3 else |
| Stations.PlatformCount | structures/station.py:70-72 | the length of the platform list, 0 without one |
| Stations.MaxLength | structures/station.py:76 | an upper bound of every platform length that some platform reaches |
| Stations.PlatformLength | structures/station.py:74-76 | 0 for no or an empty platform list, else the longest platform's length |
| Stations.KeyOf | structures/station.py:86-89 | the attribute used as dictionary key is unhashable exactly for codes and for a present location, path location or platform list |
| Stations.IndexByKey | structures/station.py:86 | every index entry points into `onto` |
| Stations.IndexByKeyLastWins | structures/station.py:86 | the index holds exactly the keys of `onto`, each pointing at the last station carrying it |
| Stations.IndexByKeyHolds | structures/station.py:86 | a key is indexed exactly when some station of `onto` carries it |
| Stations.IndexByKeyLast | structures/station.py:86 | an indexed key points at a station carrying it after which no station carries it |
| Stations.MergeAll | structures/station.py:87-107 | merging never shortens the list |
| Stations.MergeStations | structures/station.py:83-107 | TypeError exactly when some key of `onto` or of the new data is unhashable; otherwise the result is `MergeAll` over the index of `onto` |
| Stations.MergeLoop | structures/station.py:87-107 | the loop over the new stations fails with TypeError exactly when a newcomer's key is unhashable, else yields `MergeAll` |
| Stations.FirstUnhashable | structures/station.py:86 | the first station whose key cannot be hashed, or the length when all can |
| Stations.MergeAllStep | structures/station.py:88-107 | one more newcomer either refines the indexed station in place or is appended, the rest of the list unchanged |
| Stations.MergeIntoFillsOnlyNone | structures/station.py:90-104 | a merged station refines the old one: each empty attribute other than `on` takes the newcomer's value, no filled attribute changes, the key is unchanged and the codes are extended |
| Stations.MergeAllShape | structures/station.py:87-107 | the result is `onto`, each station possibly refined, followed by exactly the newcomers whose key no station of `onto` has, in order |
| Stations.RefinesTransitive | structures/station.py:90-104 | refining a refined station still refines the original |
| Stations.MergeAllCodes | structures/station.py:104 | every station matched by a newcomer ends up holding each of that newcomer's codes |
| Stations.MergeOnCodesFails | structures/station.py:86 | merging on the code list raises TypeError whenever `onto` is non-empty |
| Stations.FromStation | structures/station.py:121-133 | IndexError exactly for a station without codes; otherwise ril100 is the first code, the group is `Group`, platforms the count, platformLength the truncated length, forRandomTasks None |
| Countries.Iso3166 | structures/country.py:21-130 | every country's ISO code is two upper-case ASCII letters |
| Countries.DbRil100 | structures/country.py:23-130 | every RIL100 country code is one character |
| Countries.Uic | structures/country.py:24-130 | every UIC country number has two digits |
| Countries.Tld | structures/country.py:28-33 | the configured domain when there is one (only 'uk' for GB), else the lower-cased ISO code |
| Countries.Flag | structures/country.py:13-38 | two characters, each the upper-cased ISO letter shifted by the offset from 'A' to U+1F1E6, so both are regional indicators (line 13 read as U+1F1E6, see "## Left out") |
| Countries.Unflag | structures/country.py:13-38 | shifting a flag back gives two upper-case ASCII letters (same reading of lines 13-14 as Countries.Flag) |
| Countries.TableRoundTrip | structures/country.py:132-136 | each country is found again by the RIL100, ISO, domain and UIC tables from its own keys |
| Countries.Ril100RoundTrip | structures/country.py:132 | the RIL100 table gives back the country of each RIL100 letter |
| Countries.IsoRoundTrip | structures/country.py:133 | the ISO table gives back the country of each ISO code |
| Countries.TldRoundTrip | structures/country.py:134 | the domain table gives back the country of each domain |
| Countries.TldTableRoundTrip | structures/country.py:134 | the domain table gives back the country of each spelled-out domain |
| Countries.UicRoundTrip | structures/country.py:136 | the UIC table gives back the country of each UIC number |
| Countries.Ril100Back | structures/country.py:132 | a RIL100 letter the table knows is the letter of the country it gives |
| Countries.Iso3166Back | structures/country.py:133 | an ISO code the table knows is the code of the country it gives |
| Countries.TldBack | structures/country.py:134 | a domain the table knows is the domain of the country it gives |
| Countries.TldTableBack | structures/country.py:134 | a domain the table knows is the spelled-out domain of the country it gives |
| Countries.TldSpelledOut | structures/country.py:28-33 | the computed domain of every country equals the literal domain table |
| Countries.UicBack | structures/country.py:136 | a UIC number the table knows is the number of the country it gives |
| Countries.UpperIso | structures/country.py:37 | upper-casing an ISO code changes nothing |
| Countries.UnflagFlag | structures/country.py:35-38 | un-shifting a country's flag gives its ISO code |
| Countries.FlagRoundTrip | structures/country.py:135 | the flag table inverts `Flag` in both directions |
| Countries.FlagBack | structures/country.py:135 | a flag the table knows is the flag of the country it gives |
| Countries.CountryFromCode | structures/country.py:154-178 | an X or Z code (upper-cased) is classed as RIL100_X with the country of its second character, IndexError when it has none; RIL100_Z never comes out; a ':' code gives (None, NONE) |
| Countries.UnprefixedIsGerman | structures/country.py:177-178 | a code without any recognised prefix is (Germany, NONE) |
| Countries.ColonResolution | structures/country.py:165-170 | an 'XX:' code resolves through the ISO table first, then the lower-cased domain table, else to Python's None |
| Countries.UicResolution | structures/country.py:171-174 | a UIC-looking code resolves exactly when its first two digits are a known UIC number |
| Countries.StripCountry | structures/country.py:189-199 | a Z code always loses two characters, an X code only with `strip_ril100`; the result is always a suffix of the code |
| Countries.StripUnprefixed | structures/country.py:198-199 | a code with no prefix `strip_country` knows is returned unchanged |
| Countries.SplitCountry | structures/country.py:202-205 | the bare code is `strip_country`'s, the country and representation are `country_from_code`'s; unpacking its None raises TypeError |
| Countries.CompatibleFormat | structures/country.py:208-224 | colon and flag codes become flag + code; German X/Z codes lose the pseudo-prefix; unprefixed codes are unchanged; the result always ends with the code |
| Countries.CompatibleKeepsForeignPrefix | structures/country.py:222-224 | a foreign X, Z or UIC code is prefixed with the country's own X/Z RIL100 form or UIC number |
| Countries.ScanStep | structures/country.py:229-242 | one code yields at most one output code and keeps the earlier output |
| Countries.ParseCodesWithCountries | structures/country.py:227-242 | the loop yields exactly the codes of the scan, or its error |
| Countries.ScanFails | structures/country.py:229-230 | once a prefix of the codes fails, the whole scan fails with that error |
| Countries.ScanNeverLonger | structures/country.py:227-242 | the output is never longer than the input |
| Countries.NoPrefixKeepsCode | structures/country.py:175-199 | a code classed as unprefixed is not shortened by `strip_country` |
| Countries.FlagThenCode | structures/country.py:231-238 | a bare flag selects its country (none for Germany) and the next unprefixed code gets that flag |
| Countries.SplitUnprefixed | structures/country.py:202-205 | an unprefixed code splits into Germany, itself and NONE |
| Countries.SplitFlag | structures/country.py:162-205 | a bare flag splits into its country, the empty code and FLAG |
| Countries.ScanPair | structures/country.py:229-242 | scanning two codes is the step on the first followed by the step on the second |
| Routes.Rank | structures/route.py:203-212 | the rank map puts Unknown alone at -1 and every other kind in 0..2 |
| Routes.KindLessTotal | structures/route.py:214-215 | ordering kinds by rank is a strict total order with Unknown < Nebenbahn < Hauptbahn < Sfs |
| Routes.FromSpeedCategory | structures/route.py:217-227 | Nebenbahn exactly for that category, Sfs exactly for a Hauptbahn of at least 250 km/h, Hauptbahn for a slower one, Unknown for any other category |
| Routes.RouteNumbersExact | structures/route.py:29-33 | the dictionary's keys are distinct and are exactly the route numbers of the tracks |
| Routes.TracksOfExact | structures/route.py:29-33 | each route number's set holds each of its tracks once and nothing else |
| Routes.NewRouteNumber | structures/route.py:31-32 | a route number met for the first time starts with an empty set |
| Routes.InsertReal | structures/route.py:36-37 | inserting a key keeps the keys sorted and adds exactly that key to the multiset |
| Routes.SortReals | structures/route.py:36-37 | the sorted keys are sorted and a permutation of the keys |
| Routes.Kms | structures/route.py:36-37 | one key per track, the track's from_km wherever it has one |
| Routes.CheckGroup | structures/route.py:35-40 | the sort-and-compare loop of one group raises exactly the group's error |
| Routes.AdjacentRepeat | structures/route.py:38-40 | the neighbour loop finds an equal pair of neighbours exactly when there is one |
| Routes.SortedAdjacent | structures/route.py:36-40 | in sorted keys two equal neighbours exist exactly when two equal keys exist anywhere |
| Routes.PairGivesMultiplicity | structures/route.py:36-40 | two equal elements make that element occur at least twice in the multiset |
| Routes.MultiplicityGivesPair | structures/route.py:36-40 | an element occurring twice in the multiset sits at two distinct positions |
| Routes.SamePairs | structures/route.py:36-37 | sorting keeps whether two keys are equal |
| Routes.KmPairs | structures/route.py:36-40 | two equal keys exist exactly when two tracks of the group share a from_km |
| Routes.SortedCheck | structures/route.py:35-40 | comparing neighbours after the sort rejects exactly the groups where two tracks share a from_km |
| Routes.FirstGroupErrorNone | structures/route.py:35-40 | no error is raised exactly when no group raises |
| Routes.FirstErrorOfPrefix | structures/route.py:35-40 | once a group raises, the whole check raises that same error |
| Routes.PathsOfIndex | structures/route.py:41-46 | the result holds one path per route number, in dictionary order, each carrying that number and its tracks |
| Routes.GroupByRouteNumber | structures/route.py:29-33 | the grouping loop yields the first-seen key order and, for each key, exactly its tracks |
| Routes.MergeTracks | structures/route.py:28-46 | `merge_tracks` returns exactly `MergeTracksSpec`, whose properties follow |
| Routes.MergeTracksPartition | structures/route.py:28-46 | the paths have distinct route numbers, each holds only input tracks of its own number, and every input track lies in exactly one path |
| Routes.MergeTracksRejectsSharedKm | structures/route.py:35-40 | two distinct tracks of one route number with equal from_km make the call raise |
| Routes.FlattenMembership | structures/route.py:101-104 | a track is among the visited tracks exactly when some waypoint pair contributed it |
| Routes.TwistingOf | structures/route.py:111-123 | KeyError exactly when the dictionary is used and misses one of the two codes; otherwise only a zero distance fails, with ZeroDivisionError; a factor is computed only when the dictionary is used |
| Routes.CountryIsos | structures/route.py:125-127 | the only error of the country lookup is AttributeError |
| Routes.CountryIsosFails | structures/route.py:125-127 | the lookup fails exactly when some visited code has no country |
| Routes.CountryIsosExact | structures/route.py:125-127 | the ISO codes are distinct, not empty for a non-empty walk, and exactly those of the visited countries |
| Routes.CountryIsosDistinct | structures/route.py:125-127 | no ISO code occurs twice, and a non-empty walk gives at least one |
| Routes.CountryIsosFound | structures/route.py:125-127 | an ISO code is listed exactly when some visited code's country has it |
| Routes.MaxRankKind | structures/route.py:134 | `max(tracks, key=rank).kind` is a kind of some track and no track has a higher rank |
| Routes.MakePathMeaning | structures/route.py:106-149 | making a path fails exactly on a twisting error, a missing country or no tracks (ValueError from `max`); otherwise it runs from the first visited waypoint to the stop, with the truncated length, electrified exactly when every track is, the group of a top-ranked track, the twisting factor and the visited countries |
| Routes.MakePathEnds | structures/route.py:106-109 | a path made at a stop starts at the first visited waypoint and ends at the stop |
| Routes.Anchor | structures/route.py:150-153 | the waypoint where the path under way began is 0 or a stop, and no stop lies between it and the current waypoint |
| Routes.PairCount | structures/route.py:98 | `zip` stops at the shorter list: no more pairs than tracks, and fewer than the waypoints |
| Routes.FromRoute | structures/route.py:89-154 | the walking loop returns exactly `FromRouteSpec`, whose properties follow |
| Routes.WalkOn | structures/route.py:98-104 | a waypoint pair ending at no stop extends the visited waypoints and tracks |
| Routes.WalkEmits | structures/route.py:106-153 | a pair ending at a stop appends the path made there, or ends the walk with that path's error, and restarts the visited lists |
| Routes.FromRouteStep | structures/route.py:98-153 | one more waypoint pair grows the visited waypoints and tracks by one and, at a stop, emits a path |
| Routes.PathsErrorPersists | structures/route.py:98-154 | an error at some pair is the error of the whole call |
| Routes.PathsPerStop | structures/route.py:106-109 | the call emits exactly one path per stop among the waypoints after the first |
| Routes.PathsChain | structures/route.py:106-153 | the first path starts at the first waypoint, each path ends at a stop and the next one starts where the previous one ended |
| Routes.ChainAtStop | structures/route.py:106-153 | the chaining holds after a pair that ends at a stop |
| Routes.ChainPastWaypoint | structures/route.py:98-104 | the chaining holds after a pair that ends at no stop |
| Routes.FieldIndex | structures/route.py:74-87 | every attribute of a path has a position in the attribute list |
| Routes.PathFieldsListed | structures/route.py:74-159 | the attribute list walked by `merge` holds every attribute once |
| Routes.WithAttr | structures/route.py:163-168 | setting an attribute replaces that one and keeps every other |
| Routes.AsText | structures/route.py:163-168 | setting a text attribute replaces that one and keeps every other |
| Routes.AttrOfFits | structures/route.py:74-87 | an attribute read from a path has that attribute's type |
| Routes.ClearedPaths | structures/route.py:166-168 | after merging, each sub-path is the path with every shared attribute set to None |
| Routes.HoistedAttr | structures/route.py:159-165 | the parent holds an attribute exactly when all paths share it, with the first path's value |
| Routes.ClearedAttr | structures/route.py:166-168 | a sub-path loses exactly the shared attributes |
| Routes.Merge | structures/route.py:156-176 | an empty list raises IndexError at `paths[0]`; otherwise the result is the merged path |
| Routes.HoistOne | structures/route.py:159-168 | one turn of the attribute loop extends the hoisted parent and the cleared sub-paths by that attribute |
| Routes.HoistedNext | structures/route.py:159-165 | hoisting one more attribute changes the parent in that attribute alone |
| Routes.ClearedNext | structures/route.py:166-168 | clearing one more attribute changes each sub-path in that attribute alone |
| Routes.ClearAll | structures/route.py:167-168 | the inner loop sets one attribute of every path to None and keeps the rest |
| Routes.MergeHoists | structures/route.py:159-168 | a shared attribute sits on the parent and in no sub-path; any other stays in its sub-path and is not on the parent |
| Routes.MergedPlainAttr | structures/route.py:159-165 | an attribute other than maxSpeed, twistingFactor and objects is the hoisted one |
| Routes.MergedSubPaths | structures/route.py:169-175 | the parent's objects are the cleared paths, never none for a non-empty list |
| Routes.MergeDefaults | structures/route.py:170-173 | the parent's maxSpeed and twistingFactor are the shared value, or 0 when none is shared |
| Routes.MergeRestores | structures/route.py:156-176 | reading an attribute through the parent, else through the sub-path, gives back every path's attribute from before the merge |
| Routes.KeyNameNames | structures/route.py:178-179 | each attribute has its own dictionary key and the key names it back |
| Routes.EntriesKeys | structures/route.py:179 | an attribute's key is present exactly when the attribute is set, and holds its encoding |
| Routes.ToDictKeys | structures/route.py:178-184 | `to_dict` has an attribute's key exactly when the attribute is not None, with the attribute's value and sub-paths written as dictionaries |
| Routes.Decoded | structures/route.py:74-87 | reading an entry back gives a value of the attribute's type |
| Routes.FilledAttr | structures/route.py:74-87 | a path read from a dictionary has each listed attribute read from its entry and the others None |
| Routes.AttrsDetermine | structures/route.py:74-87 | two paths with equal attributes are equal |
| Routes.DecodedRoundTrip | structures/route.py:178-184 | reading an attribute back from `to_dict` gives the attribute |
| Routes.DictRoundTrip | structures/route.py:178-184 | a path read back from its dictionary is the same path, sub-paths included |
| Routes.InvalidStation | structures/route.py:49-54 | the placeholder station has only the code |
| Routes.StopStationsMatch | structures/route.py:67-68 | one station per stop, each the dictionary's station of some stop or its placeholder |
| Routes.TcRouteFromRoute | structures/route.py:62-70 | the route's stations and the merged path of `from_route`, each failure passed on |
| RouteData.DigitRun | route_data.py:17 | the greedy `\d+` run stays in the string, holds only digits and stops before a non-digit |
| RouteData.FromGroup | route_data.py:17 | a matched optional `ab (\d+) ` group ends inside the string |
| RouteData.ExtractSpeed | route_data.py:20-30 | both bounds are non-negative |
| RouteData.ExtractUpperOnly | route_data.py:17-29 | "bis Y km/h" gives (0, Y) |
| RouteData.ExtractLowerAndUpper | route_data.py:17-29 | "ab X bis Y km/h" gives (X, Y) |
| RouteData.LowerAndUpperAt | route_data.py:17 | the pattern matched at the start of "ab X bis Y km/h" yields X and Y |
| RouteData.FromGroupOf | route_data.py:17 | the optional group reads X back from "ab X " and ends after it |
| RouteData.TailOf | route_data.py:17 | the `bis (\d+) km/h` part reads Y back |
| RouteData.NoMatchWithoutUpTo | route_data.py:21 | the search finds nothing in a text without "bis " |
| RouteData.ExtractWithoutUpTo | route_data.py:30 | a text without "bis " gives the fallback (0, 0) |
| RouteData.ConvertHauptNebenbahn | route_data.py:33-40 | 1 exactly for a Nebenbahn, 2 exactly for a Hauptbahn whose upper speed is at least 250, 0 exactly for a slower Hauptbahn, None exactly for any other category |
| RouteData.GroupIsKindValue | route_data.py:33-40 | the group is the value of the track kind `from_speed_category` gives for a Haupt- or Nebenbahn |
| RouteData.RouteRowAsWritten | route_data.py:11-13 | an entry exists exactly when the row has 14 columns and column 1 is an integer; it pairs `int(route[1])` with the electrification of column 8 and the group computed from column 8 as the speed |
| RouteData.RouteRow | route_data.py:11-13 | the same entry with the group computed from column 10, the speed column |
| RouteData.AsWrittenIgnoresSpeed | route_data.py:12 | as written, a Hauptbahn whose column 8 has no "bis " is always group 0 |
| RouteData.HighSpeedRowDiffers | route_data.py:12 | a Hauptbahn row with "ab X bis Y km/h", Y >= 250, in column 10 is group 0 as written and group 2 when read from column 10 |
| RouteData.RouteRowIsKindValue | route_data.py:12-40 | the corrected entry files a Haupt- or Nebenbahn under the value of its track kind |
| DbStrecken.Deserialize | importers/db_strecken.py:16-24 | a read track has neither from_km nor to_km |
| DbStrecken.DeserializeMeaning | importers/db_strecken.py:16-40 | IndexError exactly for a row too short for the column read first, ValueError exactly for a bad route number or length; otherwise the route number of column 1, the length of column 3, electrified exactly when column 8 is not "nicht elektrifiziert", and the kind of the column 10 upper speed and the column 13 category |
| DbStrecken.DeserializeWrittenRow | importers/db_strecken.py:16-40 | a row written from a track's own route number, length, "ab X bis Y km/h" speed, electrification and category reads back as that track |
| DbStrecken.AgreesWithRouteTable | importers/db_strecken.py:16-24 | the importer and the corrected route table accept the same rows, agree on route number and electrification, and the table's group is the value of the importer's kind |
| DbTrassenfinder.OptionalInt | importers/db_trassenfinder.py:26 | an empty cell is no route number; any other cell is read exactly when it is an integer, as that integer |
| DbTrassenfinder.DeserializeMeaning | importers/db_trassenfinder.py:21-28 | IndexError for a missing column and ValueError for a bad distance, in the order the cells are read; a waypoint exactly when the row has 18 columns, a decimal-comma distance and a valid route number cell, whose fields are the distance, the code with double spaces collapsed, a stop exactly when column 17 contains "Kundenhalt", and the route number (none for an empty cell) |
| DbTrassenfinder.NatTextHasNoComma | importers/db_trassenfinder.py:23 | the comma replacement leaves a whole number's text alone |
| DbTrassenfinder.OptionalIntOfString | importers/db_trassenfinder.py:26 | a route number written as text is read back as that number |
| DbTrassenfinder.DeserializeWrittenRow | importers/db_trassenfinder.py:21-28 | a row written from a waypoint's own distance, code, stop mark and route number reads back as that waypoint |
| DbTrassenfinder.InvalidTrack | importers/db_trassenfinder.py:31-38 | the placeholder track has the route number, is not electrified, is of unknown kind, has length 0 and no kilometres |
| DbTrassenfinder.TrackFromPathCases | importers/db_trassenfinder.py:41-75 | a track exactly when the route has a path or the last segment lies on it; AttributeError without a segment or path, KeyError for a segment of another route without a path; the track has the route number, length 0 and the given to_km, continues a segment on the same route (its electrification, kind and to_km as from_km) and otherwise takes the route's median electrification and kind without from_km |
| DbTrassenfinder.PathIndexKeys | importers/db_trassenfinder.py:83 | the index has a key exactly for each route number of the paths |
| DbTrassenfinder.PathIndexLastWins | importers/db_trassenfinder.py:83 | each key holds the last path with that route number |
| DbTrassenfinder.KmsOn | importers/db_trassenfinder.py:105-108 | the kilometres listed are exactly those of the station's locations on the route |
| DbTrassenfinder.CoversMeaning | importers/db_trassenfinder.py:115 | with both kilometres the test is the interval condition on either end; a missing from_km raises TypeError, and a missing to_km lets the test pass only when both kilometres lie below from_km |
| DbTrassenfinder.SelectionMeaning | importers/db_trassenfinder.py:114-116 | the selection succeeds exactly when every test does and then keeps at most the path's tracks: every kept track covers a kilometre and every covering track is kept |
| DbTrassenfinder.SelectTracks | importers/db_trassenfinder.py:114-116 | the selecting loop returns exactly the selection |
| DbTrassenfinder.SelectionErrorPersists | importers/db_trassenfinder.py:114-116 | a failing test ends the selection with its error |
| DbTrassenfinder.SelectionErrorAfter | importers/db_trassenfinder.py:114-116 | once a prefix of the tracks fails, the selection fails with the same error |
| DbTrassenfinder.StationFor | importers/db_trassenfinder.py:87-100 | a known code gives its station; an unknown one gives a placeholder named by the next waypoint's code |
| DbTrassenfinder.SegmentWithoutPath | importers/db_trassenfinder.py:101-141 | a route number that is missing, zero or without a path gives exactly the one placeholder track |
| DbTrassenfinder.SegmentWithKms | importers/db_trassenfinder.py:102-117 | with both stations located on the route, the tracks are those of the route's path that cover the smaller or the larger kilometre; none of them fails the assertion |
| DbTrassenfinder.TracksUpToShape | importers/db_trassenfinder.py:85-143 | the tracks of the first pairs exist exactly when every pair's do, one non-empty tuple per pair, in order |
| DbTrassenfinder.TracksUpToOk | importers/db_trassenfinder.py:85-143 | the walk succeeds exactly when every pair does |
| DbTrassenfinder.TracksUpToElements | importers/db_trassenfinder.py:143 | the tuple at each position is that pair's tracks |
| DbTrassenfinder.ConvertShape | importers/db_trassenfinder.py:78-148 | the route exists exactly when every pair of consecutive waypoints has tracks, keeps the waypoints and has one non-empty tuple per pair |
| DbTrassenfinder.SegmentNonEmpty | importers/db_trassenfinder.py:117-142 | a pair's tracks are never empty |
| DbTrassenfinder.ConvertSegment | importers/db_trassenfinder.py:86-142 | the loop body returns exactly that pair's tracks |
| DbTrassenfinder.ConvertWaypointsToRoute | importers/db_trassenfinder.py:78-148 | the method returns exactly the conversion over the lookup tables built from the stations and paths |
| DbTrassenfinder.TracksErrorPersists | importers/db_trassenfinder.py:85-143 | the first failing pair decides the error of the whole conversion |
| ConvertTrasse.GroupFromCategory | convert_trasse.py:46-62 | group 3 exactly below category 1, 0 exactly for 1 and 2, 1 exactly for 3, 5 exactly for 4 to 6, and None from 7 on |
| ConvertTrasse.GroupFromCategoryAgainstStationGroup | convert_trasse.py:46-62 | against the station model's `group`, the table agrees on categories 1 to 3 and differs on 4 to 6 and on 7 |
| ConvertTrasse.LeadingWord | convert_trasse.py:67 | the leading word is the longest prefix of word characters |
| ConvertTrasse.RemoveRilExtensions | convert_trasse.py:67-75 | AttributeError exactly when the code does not start with a word character; otherwise the non-empty leading word |
| ConvertTrasse.LeadingWordOf | convert_trasse.py:67 | a word followed by a non-word character is the leading word |
| ConvertTrasse.RemoveExtension | convert_trasse.py:66-75 | "HO U" becomes "HO", and a bare code is kept |
| ConvertTrasse.RemoveRilExtensionsIdempotent | convert_trasse.py:70-75 | removing extensions twice is removing them once |
| ConvertTrasse.GetCategoryDataCases | convert_trasse.py:78-90 | the exact code's category wins, the extension-less code's is the fallback, -1 exactly when neither is known, and an error only from a code without a leading word |
| ConvertTrasse.GetBestRil100 | convert_trasse.py:109-117 | the code when the game knows it; else its extension-less form when the game knows that; else the code; an error only from a code without a leading word |
| ConvertTrasse.GetBestRil100Idempotent | convert_trasse.py:109-117 | choosing the best code of a best code changes nothing |
| ConvertTrasse.FlipLowBitOrder | convert_trasse.py:218-224 | flipping the low bit orders the categories 2 above 0 above 1 |
| ConvertTrasse.MaxByFlipMeaning | convert_trasse.py:224 | the maximum exists exactly when every category is known, and it is the first category of flipped-bit maximum |
| ConvertTrasse.MaxByFlipOk | convert_trasse.py:224 | the maximum exists exactly when every category is known |
| ConvertTrasse.MaxByFlipFirstMaximal | convert_trasse.py:224 | `max` returns the first of the maximal elements |
| ConvertTrasse.RouteCategoryMeaning | convert_trasse.py:223-226 | a stretch without data has category 0; otherwise the category exists exactly when every covered category is known, and is the first of flipped-bit maximum |
| ConvertTrasse.LastStop | convert_trasse.py:214-228 | the last stop before a waypoint lies before it |
| ConvertTrasse.LastStopMeaning | convert_trasse.py:214-228 | the last stop before a waypoint is a stop with no stop after it, and with none there is no stop before |
| ConvertTrasse.StartIndex | convert_trasse.py:204-229 | the stretch ending at a waypoint starts at or before it |
| ConvertTrasse.SegmentNumbers | convert_trasse.py:229 | one route number per waypoint of a stretch |
| ConvertTrasse.SegmentNumbersAt | convert_trasse.py:229 | the route numbers are those of the waypoints, in order |
| ConvertTrasse.CoveredData | convert_trasse.py:215 | the only error of the route lookup is KeyError |
| ConvertTrasse.CoveredDataMeaning | convert_trasse.py:215 | the lookup succeeds exactly when every route number is known, and then lists their data in order |
| ConvertTrasse.StopEntryMeaning | convert_trasse.py:209-228 | a stop's entry carries its code, the kilometres since the previous stop (or the start) truncated, electrified exactly when every covered route is, and the flipped-bit maximum of their categories (0 when there are none) |
| ConvertTrasse.StopsUpToSucceeds | convert_trasse.py:208-229 | the accumulation succeeds exactly when every stop's entry does |
| ConvertTrasse.StopsUpToEntries | convert_trasse.py:208-229 | one entry per stop, in order, each that stop's entry |
| ConvertTrasse.StopsErrorPersists | convert_trasse.py:208-229 | the first failing stop decides the error |
| ConvertTrasse.StopsStep | convert_trasse.py:214-228 | a stop adds its entry or ends with its error; any other waypoint adds nothing |
| ConvertTrasse.StretchStep | convert_trasse.py:210-229 | the stretch restarts at a stop, carrying the stop's route number, and grows by one waypoint otherwise |
| ConvertTrasse.AccumulateStops | convert_trasse.py:201-229 | the accumulation loop returns exactly the entry of every stop |
| ConvertTrasse.AccumulatePast | convert_trasse.py:210-229 | a waypoint that is not a stop only lengthens the stretch |
| ConvertTrasse.AccumulateAtStop | convert_trasse.py:210-229 | at a stop the accumulated distance is the distance since the stretch began; the entry ends the walk with its error or is added, and a new stretch starts |
| ConvertTrasse.StopReached | convert_trasse.py:215-227 | the stop branch returns exactly the stop's entry |
| ConvertTrasse.SegmentRecord | convert_trasse.py:230-237 | a segment has exactly the keys start, end, electrified, group, length and twistingFactor |
| ConvertTrasse.SegmentsUpTo | convert_trasse.py:230-237 | one segment per pair of consecutive stops, each with those keys |
| ConvertTrasse.Without | convert_trasse.py:247-248 | a record without some keys has the others, unchanged |
| ConvertTrasse.PopFromAll | convert_trasse.py:247-248 | popping a key from every segment removes exactly that key from each |
| ConvertTrasse.AllEqual | convert_trasse.py:245 | the test holds exactly when every segment has the value under the key |
| ConvertTrasse.HoistStep | convert_trasse.py:242-248 | before its round, a key is not hoisted yet and every segment still holds its own value for it |
| ConvertTrasse.KeyFresh | convert_trasse.py:242 | the keys walked by the loop are distinct |
| ConvertTrasse.HoistKey | convert_trasse.py:242-248 | one round moves its key to the path record when all segments share it and it is not the twisting-factor placeholder, and pops it from every segment |
| ConvertTrasse.Hoist | convert_trasse.py:238-249 | the hoisting loop returns exactly the hoisted record and the segments without the hoisted keys |
| ConvertTrasse.HoistedEntryMeaning | convert_trasse.py:238-248 | the path record has maxSpeed 0 and a segment key other than twistingFactor exactly when all segments agree on it, with that common value |
| ConvertTrasse.HoistedRestMeaning | convert_trasse.py:242-249 | each segment keeps the twisting factor and every key the path record did not take, so each of its keys is found in the segment or the record |
| ConvertTrasse.ExtendPath | convert_trasse.py:189-249 | `extend_path` up to the file write returns exactly its specification: accumulate, pair the stops with their best codes, hoist; fewer than two stops raise IndexError |
| ConvertTrasse.PlatformFigures | convert_trasse.py:280-285 | a station number is counted exactly when a row names it, and its length is 0 or one of its rows' lengths, at least each of them, and never negative |
| ConvertTrasse.PlatformStep | convert_trasse.py:281-285 | a row adds one to its station's count and raises its maximum length to the row's |
| ConvertTrasse.NoRowsNoLength | convert_trasse.py:283 | a station without rows has length 0 |
| ConvertTrasse.CountPlatforms | convert_trasse.py:280-286 | the counting loop has an entry exactly for each station number with a row: its count and largest length |
| Graphs.AddNodes | validation/graph.py:15 | `add_nodes_from` adds exactly the listed nodes and no edge |
| Graphs.AddEdge | validation/graph.py:16 | one edge adds both ends as nodes and keeps the graph well formed |
| Graphs.AddEdgeAdjacency | validation/graph.py:16 | after adding an edge its ends are adjacent, and every other pair keeps its adjacency and its edge data |
| Graphs.AddEdges | validation/graph.py:16 | `add_edges_from` keeps the graph well formed |
| Graphs.Ends | validation/graph.py:16 | both ends of every entry are among the ends |
| Graphs.EndsBelong | validation/graph.py:16 | every end belongs to some entry |
| Graphs.AddEdgesNodes | validation/graph.py:16 | `add_edges_from` adds exactly the ends of its entries as nodes |
| Graphs.AddEdgesAdjacency | validation/graph.py:16 | two nodes are adjacent afterwards exactly when they were before or some entry joins them |
| Graphs.JoinsSnoc | validation/graph.py:16 | an entry joining a pair is among the earlier entries or is the last one |
| ShortestPaths.SpeedCap | validation/shortest_paths.py:11 | 5000 without a train or without a `maxSpeed` key; with one, the train's `speed`, KeyError when that is missing |
| ShortestPaths.Min | validation/shortest_paths.py:14 | `min` of two numbers is one of them and at most both; anything else raises |
| ShortestPaths.Divide | validation/shortest_paths.py:14 | a quotient exists exactly for numbers with a non-zero divisor, and times the divisor gives the dividend |
| ShortestPaths.TimeWeight | validation/shortest_paths.py:14 | an edge without `length` or `maxSpeed` raises KeyError |
| ShortestPaths.DistanceWeight | validation/shortest_paths.py:31 | the weight exists exactly when `length` is a number, and is that number |
| ShortestPaths.NoTrainWeight | validation/shortest_paths.py:11-14 | without a train an edge of speed at most 5000 weighs its length over its speed |
| ShortestPaths.Tail | validation/shortest_paths.py:19 | `sub_path[1:]` drops the first node, and is empty for an empty path |
| ShortestPaths.ShortestPath | validation/shortest_paths.py:6-22 | None for fewer than two waypoints; otherwise the speed cap is read first and the concatenation of the travel-time shortest paths is returned |
| ShortestPaths.ShortestPathDistance | validation/shortest_paths.py:26-39 | a path exactly when there are two waypoints and every pair's distance shortest path exists |
| ShortestPaths.WalkJoin | validation/shortest_paths.py:17-19 | a walk continued by one starting at its end, first node dropped, is a walk between the outer ends |
| ShortestPaths.ThroughIsWalk | validation/shortest_paths.py:12-19 | with a shortest-path oracle that returns walks, the concatenation through the first waypoints runs along edges from the first to the last of them |
| ShortestPaths.ThroughExtends | validation/shortest_paths.py:17-19 | the concatenation through fewer waypoints is a prefix of the one through more |
| ShortestPaths.ShortestPathVisitsWaypoints | validation/shortest_paths.py:12-20 | the result walks from the first to the last waypoint and passes every waypoint, in order, at the end of the prefix through it |
| ShortestPaths.ConcatenatePaths | validation/shortest_paths.py:12-37 | the generator loop returns exactly the concatenation: the first pair's path, then each later path without its first node |
| ShortestPaths.ThroughErrorPersists | validation/shortest_paths.py:12-19 | a failing pair ends the concatenation with its error |
| ShortestPaths.GetShortestPath | validation/shortest_paths.py:6-22 | the method returns exactly `get_shortest_path` |
| ShortestPaths.GetShortestPathDistance | validation/shortest_paths.py:26-39 | the method returns exactly `get_shortest_path_distance` |
| ShortestPaths.WithoutTrivialNodes | validation/shortest_paths.py:42-43 | the filter returns no more nodes than the path, each kept because its degree exceeds 2 or it is a waypoint |
| ShortestPaths.WithoutTrivialNodesMeaning | validation/shortest_paths.py:42-43 | the result is a subsequence of the path holding exactly the path's graph nodes of degree above 2 and waypoints |
| ShortestPaths.WaypointsKept | validation/shortest_paths.py:43 | every waypoint on the path that is a graph node survives |
| ShortestPaths.WithoutTrivialNodesIdempotent | validation/shortest_paths.py:42-43 | filtering twice is filtering once |
| PathGraph.BuildTcGraph | validation/graph.py:13-17 | the built graph is well formed |
| PathGraph.BuildTcGraphShape | validation/graph.py:13-17 | the nodes are the stations and the ends of the paths, and two nodes are adjacent exactly when a path joins them |
| PathGraph.UpperField | validation/graph.py:21-23 | a missing key raises KeyError and a non-string AttributeError; otherwise the upper-cased string |
| PathGraph.StationCodes | validation/graph.py:21 | one upper-cased `ril100` per station, in order |
| PathGraph.PathEdges | validation/graph.py:22-23 | every edge joins two station codes, and there are no more edges than paths |
| PathGraph.PathEdgesMeaning | validation/graph.py:22-23 | an edge joins two codes exactly when some path whose upper-cased ends are both station codes has them as ends |
| PathGraph.GraphFromFiles | validation/graph.py:20-25 | the graph's nodes are exactly the station codes |
| PathGraph.EdgesAmongCodes | validation/graph.py:22-23 | the ends of the edges are station codes |
| PathGraph.GraphFromFilesEdges | validation/graph.py:20-25 | two codes are adjacent exactly when some flattened path with both ends known joins them |
| PathGraph.FromCliArgs | validation/graph.py:46-53 | the two "avoid" flags are negated into the two "allow" settings, the others are copied |
| PathGraph.NoFlagsGiveDefaults | validation/graph.py:28-53 | no flags give the defaults, except that a missing equipment list is None, not an empty set |
| PathGraph.GetPathSuggestion | validation/graph.py:56-68 | a shortest-path error is passed on; a result exactly when the path exists and is simple, AssertionError for a path that is not simple; the full path, or the reduced one |
| UpdatePaths.ConfigFor | update_path_suggestions.py:46-54 | the given configuration unless `auto_service` is set and the task names a service; then that service's configuration, KeyError for an unknown service and TypeError for an unhashable one |
| UpdatePaths.AsValue | update_path_suggestions.py:58 | the suggestion is stored as a JSON list of the same codes, in order |
| UpdatePaths.Suggested | update_path_suggestions.py:45-60 | a configuration error propagates; a non-empty suggestion is stored under `pathSuggestion`; an empty one or a missing path leaves the task as it was; any other error propagates |
| UpdatePaths.Pruned | update_path_suggestions.py:61-62 | a suggestion that is empty or equals the waypoints is removed, any other one kept, and nothing else changes |
| UpdatePaths.UpdateOwn | update_path_suggestions.py:42-62 | without `force` an existing suggestion is only pruned; otherwise one is computed and then pruned; no other key changes and a remaining suggestion is non-empty and differs from the waypoints |
| UpdatePaths.UpdateTask | update_path_suggestions.py:37-65 | only `pathSuggestion` and `objects` can change; `objects` is present exactly when it was; a task without waypoints keeps its suggestion as it was |
| UpdatePaths.UpdateObjects | update_path_suggestions.py:63-65 | a list of sub-tasks stays a list of the same length; a string or dictionary that can be iterated is left as it is |
| UpdatePaths.UpdateItems | update_path_suggestions.py:64-65 | one updated item per item |
| UpdatePaths.UpdateItemsMeaning | update_path_suggestions.py:64-65 | each sub-task is updated with the same settings and every item that is not a task is left as it was |
| UpdatePaths.SuggestionProvenance | update_path_suggestions.py:44-62 | a task's suggestion is the one it had or one the suggestion function returned for its waypoints |
| UpdatePaths.ForcedUpdateIdempotent | update_path_suggestions.py:37-65 | a second forced update changes nothing |
| UpdatePaths.ForcedObjectsIdempotent | update_path_suggestions.py:63-65 | the sub-tasks of a forced update, updated again, stay as they are |
| UpdatePaths.OwnFixed | update_path_suggestions.py:42-62 | a task the own step leaves alone stays so when only its `objects` differ |
| UpdatePaths.ForcedOwnIdempotent | update_path_suggestions.py:42-62 | the own step of a forced update, applied to its result, gives that result again |
| UpdatePaths.OwnFrame | update_path_suggestions.py:42-62 | two tasks that differ only in `objects` get the same outcome of the own step |
| UpdatePaths.ItemsFixed | update_path_suggestions.py:64-65 | a list whose items the update leaves alone is updated to itself |
| UpdatePaths.ItemsErrorPersists | update_path_suggestions.py:64-65 | the first failing sub-task ends the walk with its error |
| UpdatePaths.UpdatePathSuggestion | update_path_suggestions.py:37-65 | the method with its loop over the sub-tasks returns exactly the updated task |
| UpdatePaths.UpdatedTasks | update_path_suggestions.py:30-32 | one updated task per task model, each the update of that task |
| UpdatePaths.UpdatedTasksErrorPersists | update_path_suggestions.py:30-32 | the first failing task ends the run with its error |
| UpdatePaths.UpdatePathSuggestions | update_path_suggestions.py:13-34 | the loop over the task models returns exactly the updated tasks |
| Tasks.TaskPath | structures/task.py:50-59 | StopIteration for fewer than two waypoints; otherwise the concatenation of the length-weighted shortest paths of the consecutive pairs |
| Tasks.TaskPathIsWalk | structures/task.py:50-59 | with an oracle returning walks, the task's path runs along edges from its first to its last waypoint |
| Tasks.ShortestPath | structures/task.py:50-59 | the concatenating loop returns exactly the task's path |
| Tasks.SfsFromMeaning | structures/task.py:78-86 | the loop answers True exactly when some pair's edge has group 2 and every earlier pair's edge has another group |
| Tasks.SfsFromWalk | structures/task.py:78-79 | along a walk every pair is an edge, so the lookup never raises |
| Tasks.UsesSfsMeaning | structures/task.py:76-86 | with an oracle returning walks, `uses_sfs` fails only when no path is found, and is True exactly for a group-2 edge reached before any edge without a group |
| Tasks.UsesSfsLoop | structures/task.py:76-86 | the `for ... else` loop returns exactly `uses_sfs` |
| Tasks.CleanupTask | structures/task.py:315-321 | the cleaned task has exactly the keys whose value is not None, with their values, `objects` cleaned in turn |
| Tasks.CleanupObjects | structures/task.py:319-321 | a list stays a list; an iterable string or dictionary that yields nothing is left as it is |
| Tasks.CleanupItems | structures/task.py:320-321 | one cleaned item per item |
| Tasks.CleanupItemsMeaning | structures/task.py:320-321 | each item of the cleaned list is the cleaned sub-task |
| Tasks.CleanedHasNoNulls | structures/task.py:315-321 | a cleaned task holds no None value at any depth of `objects` |
| Tasks.CleanupItemsErrorPersists | structures/task.py:320-321 | the first failing sub-task ends the walk with its error |
| Tasks.CleanupTaskInPlace | structures/task.py:315-321 | the popping method with its loop returns exactly the cleaned task |
| Tasks.SubDicts | structures/task.py:326 | the sub-tasks have `keys` exactly when `objects` is a list of dictionaries, which are then the items in order |
| Tasks.ItemDicts | structures/task.py:326 | a list whose items are all dictionaries gives exactly those dictionaries |
| Tasks.CommonKeys | structures/task.py:326-329 | a key is common exactly when every sub-task has it |
| Tasks.Popped | structures/task.py:330-332 | the new sub-task holds exactly the popped keys with the task's values |
| Tasks.Rest | structures/task.py:331-332 | the task keeps exactly its keys that were not popped, with their values |
| Tasks.ExtractRemainingMeaning | structures/task.py:324-334 | without a common key the task is unchanged; otherwise the common keys, never `objects`, leave the task and form one new, last sub-task holding the task's values, and every other key keeps its value |
| Tasks.ExtractRemainingUnshared | structures/task.py:333 | with no common key nothing is appended and the task is unchanged |
| Tasks.ExtractRemainingShared | structures/task.py:330-334 | with common keys the new sub-task is appended with the task's values and those keys leave the task |
| Tasks.ExtractingObjectsFails | structures/task.py:332-334 | when every sub-task carries `objects`, `objects` is popped too and the append raises KeyError |
| Tasks.ExtractRemainingSubtask | structures/task.py:324-334 | the intersecting and popping loops return exactly the extraction |
| Tasks.IntersectKeys | structures/task.py:326-329 | the intersecting loop leaves exactly the keys of every sub-task |
| Tasks.PopKeys | structures/task.py:330-332 | the popping loop raises KeyError exactly when the task lacks a common key; otherwise it gives the popped sub-task and the rest of the task |
| TaskMerge.Filled | structures/task.py:274-277 | a filled task has every compared field, keeps every field it had, and the added ones are None |
| TaskMerge.FillTask | structures/task.py:275-277 | the loop over the compared fields returns exactly the filled task |
| TaskMerge.FilledAll | structures/task.py:274-277 | every task is filled, in order |
| TaskMerge.Overlap | structures/task.py:283-294 | zero unless the task has no `objects` and agrees in group, capacity and one of name, descriptions or stations; then it fails, with KeyError, exactly when the earlier task lacks one of its fields, and otherwise counts at least the equal group |
| TaskMerge.Overlaps | structures/task.py:281-294 | one count per task kept so far |
| TaskMerge.OverlapsMeaning | structures/task.py:281-294 | each count is that task's overlap, and the list fails, with KeyError, exactly when one of them does |
| TaskMerge.FirstMax | structures/task.py:298 | `overlap.index(max(overlap))` is a position of the list |
| TaskMerge.FirstMaxIsFirst | structures/task.py:298 | that position holds the largest count and no earlier position holds as much |
| TaskMerge.Differing | structures/task.py:301-305 | the sub-task holds exactly the task's fields whose values differ from the earlier task's, with the task's values |
| TaskMerge.Fold | structures/task.py:299-306 | folding succeeds exactly when `objects` is missing or a list, and adds at most the key `objects` |
| TaskMerge.FoldMeaning | structures/task.py:299-306 | the earlier task keeps every other field and its sub-task list gains the differing fields at its end |
| TaskMerge.MergeStep | structures/task.py:280-309 | one pass keeps the list or adds one task |
| TaskMerge.MergeStepMeaning | structures/task.py:281-309 | a task is appended exactly when it can fold into none of the kept tasks; otherwise it folds into the first kept task of largest overlap, which it can fold into, and no other kept task changes |
| TaskMerge.MergeStepKeepsFirst | structures/task.py:278-309 | the first kept task stays first and changes at most in its sub-tasks |
| TaskMerge.MergeRest | structures/task.py:280-309 | the outer loop keeps at most one task per later task |
| TaskMerge.MergeRestKeepsFirst | structures/task.py:278-309 | over the whole outer loop, the first kept task changes at most in its sub-tasks |
| TaskMerge.MergedHaveMergeKeys | structures/task.py:274-309 | every kept task carries the compared fields |
| TaskMerge.CleanupAll | structures/task.py:310-311 | one cleaned task per kept task |
| TaskMerge.CleanupAllMeaning | structures/task.py:310-311 | each kept task is cleaned and holds no None value any more |
| TaskMerge.CleanupAllErrorPersists | structures/task.py:310-311 | the first failing clean-up ends the loop with its error |
| TaskMerge.MergeTaskDicts | structures/task.py:270-312 | a single task is returned as it is, an empty list raises IndexError, and otherwise between one and all of the tasks are kept |
| TaskMerge.MergeTaskDictsMeaning | structures/task.py:270-312 | of two or more tasks no merged task holds a None value, and the first one keeps exactly the first task's fields that were not None, sub-tasks aside |
| TaskMerge.FillTasks | structures/task.py:274-277 | the filling loop fills every task |
| TaskMerge.MergeInto | structures/task.py:281-309 | the overlap loop and the fold or append return exactly one pass |
| TaskMerge.CleanupTasks | structures/task.py:310-311 | the cleaning loop returns exactly the cleaned tasks |
| TaskMerge.MergeTasks | structures/task.py:270-312 | the method with its loops returns exactly `merge_task_dicts` |
| Expansion.Override | create_tasks.py:44-45 | a copy updated with a dictionary has the keys of both, the dictionary's values where it has them and the parent's elsewhere |
| Expansion.CharItems | create_tasks.py:43 | a string iterates as its characters, each a one-character string, in order |
| Expansion.StrItems | create_tasks.py:43 | the keys of a dictionary iterate as strings, one per key, in the listed order |
| Expansion.PairOf | create_tasks.py:45 | an element of a pair sequence given to `update` is a key/value pair only when it has exactly two parts; a list or string of another length raises ValueError, a two-character string maps its first character to its second |
| Expansion.UpdatePairs | create_tasks.py:45 | updating with a sequence of pairs keeps every key of the copy |
| Expansion.UpdatePairsOk | create_tasks.py:45 | updating with pairs succeeds exactly when every element is a pair |
| Expansion.UpdatePairsLastWins | create_tasks.py:45 | a pair that no later pair overrides has its value in the updated copy |
| Expansion.UpdatePairsUntouched | create_tasks.py:45 | a key of the parent that no pair names keeps the parent's value |
| Expansion.UpdatePairsKeys | create_tasks.py:45 | the updated copy has exactly the parent's keys and the keys the pairs name |
| Expansion.CharPairsRefused | create_tasks.py:45 | updating with a non-empty string raises ValueError, since its characters are not pairs |
| Expansion.Update | create_tasks.py:45 | `update` with an item keeps every key of the copy, and an empty list, string or dictionary leaves it as it is |
| Expansion.StringItem | create_tasks.py:45 | a string item leaves the copy unchanged when empty and raises ValueError otherwise |
| Expansion.Copies | create_tasks.py:43-46 | one copy per sub-record |
| Expansion.CopiesMeaning | create_tasks.py:43-46 | the copies exist exactly when every item's `update` succeeds, and each is the parent updated with its item, in order |
| Expansion.CopiesFirstFailure | create_tasks.py:43-46 | failed copying reports the error of the first item whose `update` fails, every earlier item succeeding |
| Expansion.CopiesFailWith | create_tasks.py:43-46 | when every failing item fails with the same error, copying fails with it |
| Expansion.ExpandOne | create_tasks.py:40-46 | a record without `objects` expands to itself alone |
| Expansion.ExpandOneMeaning | create_tasks.py:40-46 | a record with a list of sub-records expands to the copies of the parent without `objects`, one per item, each updated with its item |
| Expansion.StringObjects | create_tasks.py:43-46 | a string of sub-records expands to nothing when empty and raises ValueError otherwise |
| Expansion.KeyItems | create_tasks.py:43-45 | each key of a dictionary of sub-records updates like a string item: the empty key leaves the copy alone, any other raises ValueError |
| Expansion.DictObjectsAsKeys | create_tasks.py:43-46 | a dictionary of sub-records expands exactly as the list of its keys, as strings, in any listing order |
| Expansion.NonEmptyKeyRefused | create_tasks.py:43-46 | a dictionary of sub-records with a non-empty key raises ValueError |
| Expansion.OnlyEmptyKey | create_tasks.py:43 | a dictionary whose only key is empty lists that key alone |
| Expansion.EmptyKeyCopies | create_tasks.py:43-46 | the dictionary `{"": …}` of sub-records expands to the parent alone |
| Expansion.CopyDropsParentObjects | create_tasks.py:43-45 | a copy never keeps the parent's `objects`; a dictionary item gives it `objects` exactly when the item has them |
| Expansion.ExpandedWithoutObjects | create_tasks.py:40-41 | records without sub-records are left exactly as they are |
| Expansion.ExpandedLast | create_tasks.py:39-46 | the last record's expansion is appended to the others' |
| Expansion.ExpandedAppend | create_tasks.py:39-46 | expansion works record by record: a concatenation expands exactly when both parts do, to the concatenation of their lists |
| Expansion.ExpandedErrorPersists | create_tasks.py:39-46 | the first failing record ends the expansion with its error |
| Expansion.CopyAll | create_tasks.py:43-46 | the copying loop returns exactly the copies |
| Expansion.CopiesErrorPersists | create_tasks.py:43-46 | the first item whose `update` fails ends the copying with its error |
| Expansion.ExpandSubRecords | create_tasks.py:38-46 | the expansion loop returns exactly the expanded list, for lists, strings and dictionaries of sub-records |
| CreateTasks.SelectedCodes | create_tasks.py:35 | the codes exist exactly when every station has `ril100`, one per station in order; otherwise KeyError |
| CreateTasks.PathEdges | create_tasks.py:48-49 | the edge list exists exactly when every path's ends can be read, and holds at most one edge per path, each joining two selected codes |
| CreateTasks.PathEdgesMeaning | create_tasks.py:48-49 | every edge is a path with both ends selected, carrying its own ends and record, and every such path is an edge |
| CreateTasks.FinishedAll | create_tasks.py:63-65 | one finished task per merged task |
| CreateTasks.FinishedAllMeaning | create_tasks.py:63-65 | each finished task is its merged task with the remaining sub-task extracted and the None values cleaned, and holds no None value anywhere |
| CreateTasks.FinishedAllErrorPersists | create_tasks.py:63-65 | the first failing task ends the loop with its error |
| CreateTasks.FinishTasks | create_tasks.py:63-65 | the finishing loop returns exactly the finished tasks |
| CreateTasks.FirstZero | create_tasks.py:69 | `index(0)` succeeds exactly when some group equals 0 and gives the first such position; otherwise ValueError |
| CreateTasks.InsertionIndex | create_tasks.py:66-69 | an entry without a group, or with group -1, fails the assertion; otherwise the index is the first group-0 entry and every entry has a group |
| CreateTasks.FirstMissing | create_tasks.py:70-71 | the first new task without a group, where `task['group']` raises, or the length when there is none |
| CreateTasks.Ones | create_tasks.py:71-73 | the group-1 tasks are no more than the tasks |
| CreateTasks.Others | create_tasks.py:74-75 | the other tasks are the rest |
| CreateTasks.OnesOthersSplit | create_tasks.py:70-75 | the two filters split the tasks: none is lost and none is added |
| CreateTasks.OnesOthersGroups | create_tasks.py:70-75 | every group-1 task goes to the first filter and every other task to the second |
| CreateTasks.Placed | create_tasks.py:70-75 | after n tasks the file holds n more entries |
| CreateTasks.PlacedPermutation | create_tasks.py:70-75 | the insertion keeps every entry and adds every new task once |
| CreateTasks.PlacedOrder | create_tasks.py:69-75 | the entries before the first group-0 entry stay in place, the group-1 tasks follow in order, then the old entries from that one on, then the other tasks in order |
| CreateTasks.PlacedStep | create_tasks.py:71-75 | a group-1 task joins the inserted ones, any other the appended ones |
| CreateTasks.Inserted | create_tasks.py:70-75 | the insertion raises KeyError exactly when a new task has no group, and otherwise keeps every entry and adds every new task once |
| CreateTasks.InsertTasks | create_tasks.py:70-75 | the insertion loop places every task before the first one without a group and fails with KeyError at that one |
| CreateTasks.PlaceNext | create_tasks.py:71-75 | one pass extends the placed tasks by one and moves the index past the inserted ones |
| CreateTasks.InsertOne | create_tasks.py:71-75 | a group-1 task is inserted at the index, which moves on by one; any other task is appended |
| CreateTasks.CreateTasksAddsFinished | create_tasks.py:18-77 | a task model that passes the checks gains exactly the finished new tasks, none holding a None value, and keeps every entry |
| CreateTasks.CreateTasksPlaces | create_tasks.py:66-75 | the group-1 tasks go, in order, right before the first group-0 entry and the others, in order, at the end; old entries keep their order |
| CreateTasks.GrouplessEntryFails | create_tasks.py:66-67 | a task model entry without a group fails, whatever the new tasks |
| CreateTasks.CreateTasksInto | create_tasks.py:18-77 | the method with its loops reports an error exactly when `create_tasks` fails, and on success leaves the task model file holding exactly its result |
| Validation.SumAppend | validation/__init__.py:46 | scoring a concatenation is scoring both parts and adding, and fails exactly when one part fails |
| Validation.SumCountsEach | validation/__init__.py:46 | every record's own score is part of a successful total |
| Validation.SumZero | validation/__init__.py:46 | the total is zero exactly when no record scores anything |
| Validation.SumErrorPersists | validation/__init__.py:46 | the first failing record ends the loop with its error |
| Validation.SumStep | validation/__init__.py:46 | one pass adds the record's score, or its exception ends the loop |
| Validation.AddUp | validation/__init__.py:131-217 | a loop that adds each record's score to `issues` returns exactly the total |
| Validation.CountUnknown | validation/__init__.py:212-213 | no more unknown items than items |
| Validation.CountUnknownMeaning | validation/__init__.py:212-213 | the count is zero exactly when every item is known and the full length exactly when none is |
| Validation.Chars | validation/__init__.py:212 | iterating a string yields its characters as one-character strings, in order |
| Validation.UnknownCountMeaning | validation/__init__.py:212-217 | a list, a string or a dictionary can be iterated, anything else raises TypeError; a list counts its unknown items, a string its unknown characters |
| Validation.CountUnknownItems | validation/__init__.py:212-217 | the inner loop counts exactly the unknown items |
| Validation.UnknownItemsOf | validation/__init__.py:212-217 | the iteration with its inner loop gives exactly the unknown count |
| Validation.StationRule | validation/__init__.py:56-66 | a station scores 50 exactly when the data set lacks its code and the code is German or Swiss, and 0 otherwise |
| Validation.Unlisted | validation/__init__.py:56-66 | no more unlisted stations than stations |
| Validation.StationsSum | validation/__init__.py:56-66 | Step 1 adds 50 per unlisted station |
| Validation.StationsRule | validation/__init__.py:50-66 | Step 1 fails, with TypeError, exactly when a code is unhashable, and otherwise scores 50 per unlisted station |
| Validation.CheckStations | validation/__init__.py:56-113 | Step 1's loop returns exactly its score |
| Validation.WithDefaultsMeaning | validation/__init__.py:133-136 | the defaults add `group` 0 and `electrified` True where missing and keep every other field |
| Validation.MissingRule | validation/__init__.py:139-146 | a missing speed and a missing length each add 10000 |
| Validation.SpeedRule | validation/__init__.py:149-152 | a speed of at least 250 on a path not of group 2 adds 50; a speed that is not a number raises TypeError |
| Validation.ElectrificationRule | validation/__init__.py:155-158 | a group-2 path that is not electrified adds 10000 |
| Validation.LengthRule | validation/__init__.py:160-170 | outside groups 2 and 3 a length above 80 adds 45 and one above 40 adds 5; a missing length raises KeyError and a non-number TypeError; groups 2 and 3 add nothing |
| Validation.TwistRule | validation/__init__.py:173-179 | a twisting factor above 0.5 adds 5; a missing one raises KeyError and a non-number TypeError |
| Validation.EndsRule | validation/__init__.py:182-189 | a missing end raises KeyError; each end that is not a selected code adds 10000 |
| Validation.MentionsMeaning | validation/__init__.py:193 | `'SFS' in name` is the substring test on a string and the key test on a dictionary; other values raise |
| Validation.NameRule | validation/__init__.py:192-201 | a name mentioning SFS adds 25 on a path not of group 2 and 5 on one of group 2 |
| Validation.AnnotationRule | validation/__init__.py:204-208 | a remaining `start_long` or `end_long` adds 800 |
| Validation.EquipmentRule | validation/__init__.py:211-217 | each needed equipment that no train equipment provides adds 10000 |
| Validation.PathScoreBlocking | validation/__init__.py:131-217 | a path that scores has both ends; the soft rules add at most 925, so it scores 10000 or more exactly when a blocking rule fires |
| Validation.PathScoreZero | validation/__init__.py:131-217 | a path scores nothing exactly when its numbers are present and within the limits, its ends are known and no other rule fires; no message is then formatted, so `print_path` cannot raise |
| Validation.PathScoreIsZero | validation/__init__.py:131-217 | a path scores nothing exactly when every rule's outcome is zero |
| Validation.PathScoreSum | validation/__init__.py:131-217 | a path that scores has an outcome for every rule, and its score is their sum |
| Validation.UnprintablePath | validation/__init__.py:131-217 | a path whose `print_path` fails but which still scores has a name that is not a string, and scores only for its unknown ends, the one rule that logs without `print_path` |
| Validation.PrintPath | validation/__init__.py:23-28 | formatting a path succeeds exactly when its name, if any, is a string and both ends are present; a non-string name raises TypeError, otherwise a missing end raises KeyError |
| Validation.Reported | validation/__init__.py:139-216 | a rule that fires reports the error of `print_path` when formatting its message fails, and its own outcome otherwise |
| Validation.ScorePath | validation/__init__.py:131-217 | the loop body adds exactly the path's score, including the TypeError or KeyError that `print_path` raises when a rule fires |
| Validation.ScorePaths | validation/__init__.py:131-217 | the path loop returns exactly the total of the path scores, or the first path's exception |
| Validation.ScoreNext | validation/__init__.py:131-217 | one turn of the path loop gives the total over one more path, or the exception that ends the loop |
| Validation.StringCodes | validation/__init__.py:221-224 | the graph's stations are exactly the selected codes that are strings |
| Validation.TcEdges | validation/__init__.py:221-222 | at most one edge per path |
| Validation.TcEdgesJoin | validation/__init__.py:221-222 | an edge joins two stations exactly when a path between them has both ends selected |
| Validation.TcGraph | validation/__init__.py:224 | the routing graph is well formed |
| Validation.TcGraphShape | validation/__init__.py:221-224 | every string code is a station of the graph and two stations are adjacent exactly when a path joins them |
| Validation.ConnectivityRule | validation/__init__.py:226-232 | a graph that is not connected adds 10000, a connected one nothing |
| Validation.DegreeRule | validation/__init__.py:234-240 | a station without a group raises KeyError; a hidden station (group 5 or 6) adds 100 exactly when its degree is not 2 |
| Validation.TrainIds | validation/__init__.py:245 | one id per train exactly when every train has one |
| Validation.Keys | validation/__init__.py:246-248 | each id as Python compares it |
| Validation.ValuesAppend | validation/__init__.py:246-251 | one more id adds one distinct value exactly when it is new |
| Validation.ValuesBound | validation/__init__.py:246-251 | there are no more distinct ids than ids |
| Validation.SortedIsGrouped | validation/__init__.py:246 | sorted numbers have equal ids next to each other |
| Validation.GroupedInit | validation/__init__.py:246-251 | a grouped list stays grouped without its last id |
| Validation.GroupedLast | validation/__init__.py:246-251 | in a grouped list the last id occurs earlier only right before it |
| Validation.ValuesLast | validation/__init__.py:246-251 | the distinct ids are those before the last plus the last |
| Validation.GroupedAdjacentEqual | validation/__init__.py:247-251 | in a grouped list the neighbour comparison counts exactly the duplicates |
| Validation.SurplusOfPermutation | validation/__init__.py:246 | the number of duplicates does not depend on the order |
| Validation.DuplicateIdRule | validation/__init__.py:245-251 | checking ids fails, with TypeError, exactly when they cannot be sorted |
| Validation.DuplicateIdsFromSortedIds | validation/__init__.py:245-251 | whatever order the sort leaves equal ids in, as long as they are neighbours, the check adds 10000 per duplicate |
| Validation.TrainEquipmentRule | validation/__init__.py:258-265 | each train equipment that no equipment list provides adds 10000 |
| Validation.ScoreTrainEquipments | validation/__init__.py:258-265 | the train loop returns exactly the total |
| Validation.CostRule | validation/__init__.py:269-276 | a missing force raises KeyError and a non-number TypeError; a pulling train without operation costs or with costs below 5 adds 10000 |
| Validation.TaskStationRule | validation/__init__.py:294-301 | each task station that is not a selected code adds 10000 |
| Validation.ScoreTaskStations | validation/__init__.py:294-301 | the task loop returns exactly the total |
| Validation.CheckRouting | validation/__init__.py:219-240 | Step 3 returns exactly the connectivity and degree scores |
| Validation.CheckTrains | validation/__init__.py:242-276 | Step 4 returns exactly the duplicate, equipment and cost scores |
| Validation.CheckTasks | validation/__init__.py:278-301 | Step 5 returns exactly the score of the expanded tasks |
| Validation.TasksScoreAsWritten | validation/__init__.py:281-292 | step 5 as written never scores: once the expansion succeeds, the import of `has_direct_path` raises ImportError |
| Validation.ScoreAsWritten | validation/__init__.py:31-292 | `validate` as written never returns a score, only the first exception of its stages |
| Validation.ScoredFilesFailAsWritten | validation/__init__.py:292 | every set of files the validator scores makes the validator as written raise ImportError |
| Validation.ScoreCountsEveryPath | validation/__init__.py:131-217 | every expanded path's own score is part of the validation score |
| Validation.BlockingPathFails | validation/__init__.py:131-217 | one path on which a blocking rule fires makes the validation score at least 10000 |
| Validation.Validate | validation/__init__.py:31-343 | the validator returns exactly the sum of the stage scores, or the first exception |
| Validation.RunStages | validation/__init__.py:131-301 | the later stages run in order and the first exception stops them |
| Validation.Combined | validation/__init__.py:131-301 | the stages give a result exactly when each succeeds, and otherwise the error of the first that fails |
| Validation.Staged | validation/__init__.py:31-301 | a successful validation has selected codes and expanded paths, and each stage's score is that stage's own result |
| BrouterNew.Delimited | importers/brouter_new.py:495-504 | every `-`, `_` and space becomes a space and nothing else changes |
| BrouterNew.Omitted | importers/brouter_new.py:496-505 | the result holds exactly the characters of the name other than `.` and `'` |
| BrouterNew.RunEnd | importers/brouter_new.py:497-506 | the whitespace run at a position ends at the first character that is not whitespace |
| BrouterNew.CollapsedStart | importers/brouter_new.py:497-506 | collapsing starts the text with whitespace only where the original does |
| BrouterNew.CollapsedRun | importers/brouter_new.py:497-506 | a run of whitespace becomes one space with no whitespace after it |
| BrouterNew.CollapsedKept | importers/brouter_new.py:497-506 | a character outside a run is kept and no run forms at it |
| BrouterNew.CollapsedSingleSpaced | importers/brouter_new.py:497-506 | after collapsing no two whitespace characters follow each other |
| BrouterNew.CollapsedClean | importers/brouter_new.py:497-506 | collapsing brings back none of the removed characters |
| BrouterNew.SaintStart | importers/brouter_new.py:507 | replacing `saint` by `st` starts the text with whitespace only where it did before |
| BrouterNew.SaintKeepsClean | importers/brouter_new.py:507 | replacing `saint` by `st` brings back no removed character and no run of whitespace |
| BrouterNew.NormalizeNameIsClean | importers/brouter_new.py:500-508 | whatever the transliteration, a normalised name holds no `-`, `_`, `.` or `'` and no two whitespace characters in a row |
| BrouterNew.GroupFromPhotonResponse | importers/brouter_new.py:511-523 | a missing `osm_value` raises KeyError; `station` gives 2, `stop` and `halt` give 5, and only `junction` gives 4 |
| BrouterNew.FirstOccurringMeaning | importers/brouter_new.py:526-542 | the first entry of the order that occurs is one of the groups and no earlier entry occurs; there is none exactly when no entry occurs |
| BrouterNew.LargestGroupIsFirstOccurring | importers/brouter_new.py:526-542 | the answer is a given group such that no group earlier in the order 0, 1, 2, 5, 3, 6, 4 occurs; None exactly when none of these occurs |
| BrouterNew.TagOr | importers/brouter_new.py:413-422 | the tag's value when it is present and the default otherwise |
| BrouterNew.GroupFromOverpass | importers/brouter_new.py:418-425 | a branch, industrial, military, test or tourism usage gives 1; otherwise a speed of at least 230 gives 2 and a lower one 0; a speed that is not a whole number raises ValueError |
| BrouterNew.UntaggedIsMainLine | importers/brouter_new.py:418-425 | tags without usage and speed give group 0 |
| BrouterNew.EquipmentsFromOverpass | importers/brouter_new.py:411-415 | a gauge other than 1435 is needed, written as `<gauge>mm`, and nothing else is |
| BrouterNew.AllEquipments | importers/brouter_new.py:462 | an equipment is in the set exactly when one of the sub-paths needs it |
| BrouterNew.NeededEquipments | importers/brouter_new.py:462-468 | the sub-paths' equipment, plus both countries' codes exactly when one end lies outside Germany |
| BrouterNew.FirstNear | importers/brouter_new.py:108-109 | the index found lies within the table |
| BrouterNew.FirstNearMeaning | importers/brouter_new.py:108-117 | the waypoint found lies near the track point and none before it does |
| BrouterNew.Stations | importers/brouter_new.py:108 | the stations of the waypoint table, in order |
| BrouterNew.Step | importers/brouter_new.py:102-117 | one track point adds as many segments as stops, moves as many entries from the table to the stops, and never moves the last stop's index past the point |
| BrouterNew.Scanned | importers/brouter_new.py:102-117 | after the scan there are as many segments as stops, and the stops and the table left together are as many as the table was |
| BrouterNew.AccountedTake | importers/brouter_new.py:114-116 | taking an entry out of the table and making its station a stop keeps every station accounted for |
| BrouterNew.StepTakes | importers/brouter_new.py:108-117 | one track point takes at most one entry out of the table, and its station becomes the stop |
| BrouterNew.ScannedTakes | importers/brouter_new.py:102-117 | each waypoint is matched at most once: the table only loses entries and the stops are exactly the stations of the entries it lost |
| BrouterNew.StepChains | importers/brouter_new.py:111-113 | one track point keeps each segment running from the stop before it to its own stop |
| BrouterNew.ScannedChain | importers/brouter_new.py:102-117 | after the scan, segment `i` runs from stop `i - 1` to stop `i` |
| BrouterNew.CollectPathSegments | importers/brouter_new.py:92-122 | on success at least one segment remains, and there is one more stop than segments |
| BrouterNew.CollectedSegmentsChain | importers/brouter_new.py:111-122 | the segments kept run from each stop to the next |
| BrouterNew.CollectedWaypointsOnce | importers/brouter_new.py:108-122 | the waypoints left are part of the table and the stops are the stations of the others |
| BrouterNew.FewStopsFail | importers/brouter_new.py:119-120 | no stop raises IndexError and a single stop fails the assertion |
| BrouterNew.MatchPoint | importers/brouter_new.py:108-117 | the inner loop stops at the first waypoint near the point |
| BrouterNew.ScanPoint | importers/brouter_new.py:103-117 | the loop body does exactly one step of the scan |
| BrouterNew.ScanAll | importers/brouter_new.py:102-117 | the loop over the track points ends in the scan's segments, stops and table |
| BrouterNew.CollectPathSegmentsLoop | importers/brouter_new.py:92-122 | the imperative procedure returns exactly the collected segments and stops, or the same error |
| ChBahnhofsbenutzer.PassengersToStationCategory | importers/ch_bahnhofsbenutzer.py:35-43 | the category lies in 1..4: 1 exactly above 60000 passengers, 2 exactly strictly between 40000 and 60000, 3 exactly strictly between 10000 and 40000, 4 for everything else |
| ChBahnhofsbenutzer.CategoryBoundaries | importers/ch_bahnhofsbenutzer.py:38-43 | 60000, 40000 and 10000 themselves give 4, and away from the gaps more passengers never give a higher category number |
| ChBahnhofsbenutzer.NameIndex | importers/ch_bahnhofsbenutzer.py:30 | every name points at a position of the station list |
| ChBahnhofsbenutzer.NameIndexMeaning | importers/ch_bahnhofsbenutzer.py:30 | the index holds exactly the stations' names, each pointing at a station of that name |
| ChBahnhofsbenutzer.SetCategories | importers/ch_bahnhofsbenutzer.py:31-32 | the station list keeps its length, and the only error is KeyError |
| ChBahnhofsbenutzer.SetCategoriesMeaning | importers/ch_bahnhofsbenutzer.py:29-32 | the update fails exactly when a newcomer's name is not indexed, and otherwise changes nothing but station categories |
| ChBahnhofsbenutzer.LastNewcomerWins | importers/ch_bahnhofsbenutzer.py:31-32 | the station a name indexes ends with the category of the last newcomer of that name |
| ChBahnhofsbenutzer.SetCategoriesErrorPersists | importers/ch_bahnhofsbenutzer.py:31-32 | the first unknown name ends the update with its KeyError |
| ChBahnhofsbenutzer.AddPassengersToStations | importers/ch_bahnhofsbenutzer.py:29-32 | the loop returns exactly the updated stations, or the KeyError |
| DbBahnhoefe.DeserializeAsWritten | importers/db_bahnhoefe.py:16-27 | on success the row has seven columns and column 6, the price category, is one of the station's codes |
| DbBahnhoefe.Deserialize | importers/db_bahnhoefe.py:16-27 | on success the row has seven columns and column 5 is the station's first code |
| DbBahnhoefe.DeserializeMeaning | importers/db_bahnhoefe.py:16-27 | IndexError and ValueError arise in the order the columns are read, and a successful row fills name, number and category from columns 4, 3 and 6 |
| DbBahnhoefe.CodeIndex | importers/db_bahnhoefe.py:31 | every code points at a position of the station list |
| DbBahnhoefe.CodeIndexMeaning | importers/db_bahnhoefe.py:31 | the index holds exactly the stations' codes, each pointing at a station that has it |
| DbBahnhoefe.FillMeaning | importers/db_bahnhoefe.py:37-42 | filling keeps every value that is there and takes the newcomer's number, category and name exactly where there was none |
| DbBahnhoefe.FillCodes | importers/db_bahnhoefe.py:35-42 | the station list keeps its length, and the only error is KeyError |
| DbBahnhoefe.FillAll | importers/db_bahnhoefe.py:33-42 | the station list keeps its length, and the only error is KeyError |
| DbBahnhoefe.FillCodesMeaning | importers/db_bahnhoefe.py:35-42 | a newcomer's codes fail exactly when one is not indexed; otherwise each station is only filled where it had nothing |
| DbBahnhoefe.FillAllMeaning | importers/db_bahnhoefe.py:30-42 | the update fails exactly when some newcomer has an unknown code; otherwise the list is neither extended nor reordered and every station is only filled where it had nothing |
| DbBahnhoefe.FillsOnlyNoneTransitive | importers/db_bahnhoefe.py:33-42 | two fill-only updates in a row are a fill-only update |
| DbBahnhoefe.FillStation | importers/db_bahnhoefe.py:35-42 | the inner loop returns exactly the stations filled from one newcomer, or the KeyError |
| DbBahnhoefe.FillCodesErrorPersists | importers/db_bahnhoefe.py:35-36 | the first unknown code ends the inner loop with its KeyError |
| DbBahnhoefe.FillAllErrorPersists | importers/db_bahnhoefe.py:33-36 | the first failing newcomer ends the update with its KeyError |
| DbBahnhoefe.AddHpInformation | importers/db_bahnhoefe.py:30-42 | the loops return exactly the filled stations, or the KeyError |
| DbBahnhoefe.AsWrittenRowIsUnknown | importers/db_bahnhoefe.py:26-36 | a row whose category text is no station's code makes the update raise KeyError |
| DbBahnhoefe.FillCodesReaches | importers/db_bahnhoefe.py:35-42 | after a newcomer's codes are processed, every station one of them indexes has a number, a category and a name wherever the newcomer had one |
| DbBahnhoefe.RowFillsItsStation | importers/db_bahnhoefe.py:16-42 | a row read from column 5 whose codes are known fills its values into the station its RIL100 code indexes |
| FrStations.FrenchFlagIsFlag | importers/fr_stations.py:120 | the prefix written before a special code is the French flag |
| FrStations.TruncateUic | importers/fr_stations.py:22-26 | an eight-character UIC number loses its last character, any other is kept, and the result is a prefix of the number |
| FrStations.GenerateCodeTuple | importers/fr_stations.py:108-123 | a row with fewer than two columns raises IndexError, which is the only error |
| FrStations.CodeTupleShape | importers/fr_stations.py:113-123 | at most one special code, flag-prefixed and first, and the UIC string last |
| FrStations.MontbardCode | importers/fr_stations.py:43-121 | Montbard gets the flag-prefixed `MBA` before its UIC number |
| FrStations.NormalizeKeepsOtherNames | importers/fr_stations.py:126-134 | a name containing none of the seven patterns is kept |
| FrStations.ReplaceMissing | importers/fr_stations.py:126-134 | a pattern with a character the text lacks is not replaced |
| FrStations.NormalizeDole | importers/fr_stations.py:130 | `Dole` becomes `Dole-Ville` |
| FrStations.Deserialize | importers/fr_stations.py:21-39 | on success the number is the truncated UIC, the location exists exactly when both coordinate columns are non-empty and is then (float of column 14, float of column 13), the category is 5 for a row marked `O` and -1 otherwise, the name is the normalised French name and the codes are those `generate_code_tuple` builds |
| FrStations.Coordinates | importers/fr_stations.py:31-34 | a location exists exactly when columns 13 and 14 are both non-empty, with latitude `float(entry[14])` and longitude `float(entry[13])`; the only errors are IndexError and a failed `float` |
| UkStations.Field | importers/uk_stations.py:16-24 | a field lookup succeeds exactly on a present key and fails with KeyError otherwise |
| UkStations.DeserializeWith | importers/uk_stations.py:13-30 | the missing key and the number that does not parse are the only errors; a record gives a station exactly when UIC and TIPLOC are non-empty, with the prefixed 3ALPHA code first when present |
| UkStations.DeserializeAsWritten | importers/uk_stations.py:13-30 | every code starts with the eight characters the file's encoding turns the flag into |
| UkStations.Deserialize | importers/uk_stations.py:13-30 | every code starts with the British flag |
| UkStations.WrittenPrefixIsGerman | importers/uk_stations.py:17-19 | a code behind the written prefix has no recognised prefix and so counts as German |
| UkStations.FlagPrefixIsBritish | importers/uk_stations.py:17-19 | a code behind the British flag counts as British |
| UkStations.AsWrittenCodesAreGerman | importers/uk_stations.py:13-30 | every code of a station read as written is taken for a German one |
| UkStations.CodesAreBritish | importers/uk_stations.py:13-30 | every code of a station read with the flag is British |
| ChBetriebsstellen.Coordinates | importers/ch_betriebsstellen.py:23-26 | a location exists exactly when columns 25 and 24 are both non-empty, latitude from 25 and longitude from 24 |
| ChBetriebsstellen.RowCodes | importers/ch_betriebsstellen.py:33-36 | the `CH:` abbreviation first when there is one, and the BPUIC text always |
| ChBetriebsstellen.Deserialize | importers/ch_betriebsstellen.py:17-38 | a short row raises IndexError and a bad number its parse error; a station gets column 2 as name, the number parsed from column 1, no platforms and category 5 |
| ChBetriebsstellen.SwissCodeIsSwiss | importers/ch_betriebsstellen.py:34 | a `CH:` code resolves to Switzerland |
| ChBetriebsstellen.FirstCodeIsSwiss | importers/ch_betriebsstellen.py:33-36 | a row with an abbreviation gives a station whose first code is Swiss |
| StationFile.ReadError | tc_utils/stations.py:12 | reading the codes fails exactly when a record lacks `ril100` (KeyError, raised first) or holds an unhashable one (TypeError) |
| StationFile.CodeIndex | tc_utils/stations.py:13 | every code points at a record of the file |
| StationFile.CodeIndexMeaning | tc_utils/stations.py:12-13 | the index holds exactly the file's codes, each pointing at the last record with that code |
| StationFile.Filter | tc_utils/stations.py:15-28 | the filter never adds stations |
| StationFile.FilterMeaning | tc_utils/stations.py:15-28 | a station is kept exactly when it is one of the stations and its known-code test comes out as asked |
| StationFile.FilterCounts | tc_utils/stations.py:15-28 | a passing station is kept as often as it occurs, and a failing one not at all |
| StationFile.RemoveFirst | tc_utils/stations.py:19-28 | `remove` succeeds exactly when the value is in the list, and then drops one element |
| StationFile.RemoveForCodes | tc_utils/stations.py:17-19 | one `remove` per code of the station in the file: a failing removal is a ValueError, the list never grows, and a station with no code in the file leaves it unchanged |
| StationFile.DropKnownAsWritten | tc_utils/stations.py:15-19 | the first filter as written fails only with ValueError and never lengthens the list |
| StationFile.DroppingTwiceFails | tc_utils/stations.py:16-19 | a station with two codes in the file is removed twice, and the second removal raises ValueError |
| StationFile.DroppingOnceKeepsNothing | tc_utils/stations.py:16-19 | the filter that tests each station once drops that station without error |
| StationFile.TcStationDict | tc_utils/stations.py:32-33 | the dictionary always holds `ril100`, holds no None value, and holds each optional field exactly when it is set |
| StationFile.FirstKnown | tc_utils/stations.py:36-41 | the code found is one of the station's codes and in the file; there is none exactly when no code is known |
| StationFile.InsertAll | tc_utils/stations.py:30-44 | the file never shrinks |
| StationFile.IndexKeys | tc_utils/stations.py:12-13 | the index covers exactly the known codes and points into the file |
| StationFile.InsertAllShape | tc_utils/stations.py:30-44 | records are never removed and only gain keys, the file grows by exactly the stations without a known code, and every appended record has a `ril100` code and no None value |
| StationFile.InsertAllGrowth | tc_utils/stations.py:43-44 | the file grows by exactly the stations without a known code |
| StationFile.InsertAllKeeps | tc_utils/stations.py:39 | an updated record keeps all of its keys |
| StationFile.InsertAllAppended | tc_utils/stations.py:43-44 | every appended record has a `ril100` code and no None value |
| StationFile.NewStationsOnlyAppend | tc_utils/stations.py:15-44 | with neither override nor update, the existing records stay as they were and new ones are only appended |
| StationFile.UpdateNeverAppends | tc_utils/stations.py:21-44 | with update, every station that reaches the loop has a known code, so nothing is appended |
| StationFile.SelectedMeaning | tc_utils/stations.py:15-28 | the filters select what their flags say: new stations only by default, known stations only with update, all of them with override alone |
| StationFile.AddStationsToFile | tc_utils/stations.py:8-44 | the file's new data, the caller's list after the filters, and the exception raised are exactly those of `AddStations`, which uses the intended first filter of the "## Findings" row (each station tested once) rather than the repeated `remove` as written |
| StationFile.InsertLoop | tc_utils/stations.py:30-44 | the loop leaves the file and the error exactly as the update-or-append model says |
| StationFile.InsertStep | tc_utils/stations.py:30-44 | one more station updates the record of its first known code or is appended |
| StationFile.InsertFails | tc_utils/stations.py:32 | a station that cannot be converted ends the loop with its error |
| StationFile.FilterLoop | tc_utils/stations.py:16-28 | the removing loop over a copy leaves exactly the filtered list |
| StationFile.FirstKnownLoop | tc_utils/stations.py:36-41 | the inner loop finds exactly the first known code |
| StationFile.InsertErrorPersists | tc_utils/stations.py:30-44 | once a station fails, the later stations change nothing |
| PathFile.AddPathToFile | tc_utils/paths.py:8-11 | exactly one record, the path's fields that are not None, is appended and the file is otherwise unchanged |
| PathFile.AddRouteToFiles | tc_utils/paths.py:14-20 | the route's stations are added with the default flags, through the intended first filter of the "## Findings" row, and then its path; an exception while adding the stations stops before the path |
| Formatting.Lines | tc_utils/formatting.py:23-28 | each dumped line together with its `strip()` |
| Formatting.Step | tc_utils/formatting.py:26-65 | one line emits at most one line; a line that ends an accumulation emits the joined block, and one that does not is only collected |
| Formatting.RunFrom | tc_utils/formatting.py:23-66 | no more output lines than input lines |
| Formatting.FormatAsWritten | tc_utils/formatting.py:15-66 | no more output lines than input lines |
| Formatting.Format | tc_utils/formatting.py:15-66 | no more output lines than input lines |
| Formatting.RunSnoc | tc_utils/formatting.py:23 | running over one more line is one more step |
| Formatting.RunConcat | tc_utils/formatting.py:23 | running over two pieces is running over the second from where the first ended |
| Formatting.StrippedOf | tc_utils/formatting.py:56 | the stripped forms of the lines, in order |
| Formatting.Accumulates | tc_utils/formatting.py:55-57 | while no line ends the accumulation, the lines are only collected, stripped |
| Formatting.BlockIsJoined | tc_utils/formatting.py:28-65 | a station array, from its opening line to the first line starting with `]`, becomes one output line: the opening line as it is and the others stripped, joined with single spaces |
| Formatting.EntryIsJoined | tc_utils/formatting.py:41-63 | inside a capacity array, an entry from its `{` line to the first line starting with `}` becomes one line, and the machine is back in the capacity array |
| Formatting.OtherLinePasses | tc_utils/formatting.py:52-54 | outside any array, a line that opens none is passed through unchanged |
| Formatting.EmptyCapacityOpens | tc_utils/formatting.py:37-40 | the line of an empty capacity list opens a capacity array |
| Formatting.StrayLine | tc_utils/formatting.py:41-51 | inside a capacity array a line that neither opens an entry nor closes the array is dropped as written, and passed through when kept |
| Formatting.OpenedThenStray | tc_utils/formatting.py:37-51 | after a line that opens a capacity array, a stray line is lost as written and kept by the corrected pass |
| Formatting.EmptyCapacityLosesLine | tc_utils/formatting.py:37-51 | after an empty capacity list the next ordinary line is lost |
| Formatting.EmptyCapacityKeepsLine | tc_utils/formatting.py:37-51 | the corrected pass keeps that line |
| Formatting.EveryLineAccounted | tc_utils/formatting.py:23-66 | every line consumed is in an output line, in the accumulator, or (only as written) lost; the accumulator is empty whenever no accumulation is open |
| Formatting.StepAccounts | tc_utils/formatting.py:26-65 | one step holds or collects its line, except a stray line dropped as written |
| Formatting.FormatKeepsEveryLine | tc_utils/formatting.py:15-66 | with stray lines kept no input line is lost: each is in the output or still being collected |
| Formatting.FeedLine | tc_utils/formatting.py:26-65 | the loop body for one line is one step of the line machine |
| Formatting.FormatLines | tc_utils/formatting.py:15-66 | the loop returns exactly the machine's output |
| CompactJson.Cleaned | compact_json.py:9-17 | the removed fields are gone, a cleared field that holds a string holds the empty string, and every other field is unchanged |
| CompactJson.CleanedIdempotent | compact_json.py:9-17 | cleaning an entry twice is cleaning it once |
| CompactJson.CleanEntry | compact_json.py:10-16 | the two inner loops give exactly the cleaned entry |
| CompactJson.CleanJson | compact_json.py:8-17 | every entry once, in input order, each cleaned |
| CompactJson.CleanStationsData | compact_json.py:20-29 | every station entry cleaned of the five routing-irrelevant fields, with its name cleared |
| CompactJson.CleanPathsData | compact_json.py:32-36 | every path entry cleaned of name and group, with nothing cleared |
| CompactJson.StationCompacted | compact_json.py:20-29 | a compacted station has none of the removed fields, and its name, if a string, is empty |
| CompactJson.PathCompacted | compact_json.py:32-36 | a compacted path has neither name nor group, and its other fields are as they were |
| Cleanup.RemoveAnnotations | cleanup.py:21-26 | on success the record has the same keys without `start_long` and `end_long`, and every field but `objects` unchanged |
| Cleanup.RemoveInObjects | cleanup.py:24-26 | a list of sub-paths stays a list, and any other value that can be iterated is unchanged |
| Cleanup.RemoveInItems | cleanup.py:25-26 | the cleaned list has as many sub-paths |
| Cleanup.RemoveInItemsMeaning | cleanup.py:25-26 | the cleaned list holds the cleaned sub-paths, item by item |
| Cleanup.RemovedIsClean | cleanup.py:21-26 | a cleaned record holds no annotation at any depth |
| Cleanup.RemoveIdempotent | cleanup.py:21-26 | cleaning twice is cleaning once |
| Cleanup.ItemsFixed | cleanup.py:25-26 | a list of cleaned sub-paths is cleaned to itself |
| Cleanup.ItemsErrorPersists | cleanup.py:25-26 | the first sub-path that fails ends the walk with its error |
| Cleanup.RemoveAnnotationsFromPath | cleanup.py:21-26 | the loop returns exactly the cleaned record, or the same error |

## Left out

- Reading and saving data files, command-line parsing, HTTP requests to geocoding and Overpass services, `lru_cache`, logging and printing are not modelled. A loaded file is the list `TcFile.data`.
- In-place updates of shared records are modelled on values for these functions: station fields in `merge_stations`, `add_hp_information_to_stations` and `add_passengers_to_stations_ch`, defaults in `validate`, keys in `cleanup_task`, `remove_annotations_from_path` and `update_path_suggestion`, and the `del` of fields in `clean_json` (compact_json.py:13-16). The model returns the updated list or record. Aliasing between two names of one record is not captured. `add_route_to_files` with the same file twice is the exception, since `TcFile` is a class.
- Stations.MergeStations: the partial updates already made before a TypeError interrupts the loop are not part of the error result.
- Python's equality `1 == 1.0 == True` is modelled only where the source compares numbers (through `Json.AsNumber`). Elsewhere `Value` equality is structural.
- Floating-point geometry is not modelled: geodesic distances, sinuosity and twisting interpolation, coordinate projection, the mph conversion and the length and name statistics of `tc_path_from_gpx`. Sinuosity, twisting and the projection are parameters where a modelled function needs them.
- `unidecode` (in `normalize_name`) is a parameter. `str.lower`, `str.upper` and `str.title` are modelled on the ASCII range only.
- BrouterNew.FirstNear: the source's nearness test, distance below 0.08, is a parameter `near`. The waypoint dictionary is an ordered sequence of pairs, since Python dictionaries iterate in insertion order.
- `import_data`, `collect_waypoint_stations`, `with_osm_platform_data` and `simplify_path_with_stops` of the BRouter importer depend on network services or floating-point geometry. Only the equipment rule of `tc_path_from_gpx` is modelled.
- Networkx Dijkstra, `is_simple_path` and `is_connected` are oracle parameters. Validation.ConnectivityRule takes connectivity as given, including networkx's refusal of an empty graph.
- `validation/graph.py:59-65` and `update_path_suggestions.py:24` call functions with arguments their definitions in this repository do not accept, and `update_path_suggestions.py:10` imports `path_suggestion_configs`, which `validation/graph.py` does not define (it is used at line 46). Each definition is modelled as written, and the calls go through parameters.
- The model assumes a revision in which these names agree, and repairs each mismatch rather than raising: `Station` takes `_codes` (structures/station.py:41), while `Station(codes=…)` is called at importers/fr_stations.py:30, importers/uk_stations.py:25, importers/brouter_new.py:271, importers/db_trassenfinder.py:92 and :99 and structures/route.py:52; importers/db_trassenfinder.py:102, :105 and :107 read `locations_path`, while the field is `location_path` (structures/station.py:44); `CodeTuple` (structures/route.py:12, importers/uk_stations.py:14), `StreckenKilometer` (structures/route.py:12, importers/db_trassenfinder.py:10) and `iter_stations_by_codes_reverse` (validation/__init__.py:14) are imported but not defined; `country_for_code` is imported at structures/route.py:11 and validation/__init__.py:17 and called at structures/route.py:125-126 and validation/__init__.py:59, while structures/country.py defines only `country_for_station` (:181) and `country_from_code`. Routes.CountryIsos takes a code's country from the parameter `countryOf` of its context in its place, and Validation.StationRule from a parameter as well. A code tuple is a sequence of strings, and the code-to-station lookup of `TcPath.from_route` and of `convert_waypoints_to_route` is a given map.
- Countries.Flag: structures/country.py:13-14 spell the regional indicator A as the four-character cp1252 reading of its UTF-8 bytes, so `ord` there raises TypeError when the module is imported, and the character class of `flag_re` is not the regional-indicator range. The model reads both lines as the intended U+1F1E6 and U+1F1E6..U+1F1FF; Countries.Unflag, Countries.FlagRoundTrip and the flag cases of Countries.CountryFromCode rest on the same reading. The country names of lines 73-128 carry the same encoding and are not modelled.
- DbTrassenfinder.SegmentWithKms: through the helper `DbTrassenfinder.SegmentTracks`, the route locations of a station are the parameter `Tables.locationsPath`, an arbitrary function; nothing ties it to the station's `location_path` field, and a placeholder from `InvalidStation` gets whatever locations it gives.
- DbTrassenfinder.ConvertSegment: rests on the same parameter `Tables.locationsPath` as DbTrassenfinder.SegmentWithKms.
- Validation.Validate: the import of `iter_stations_by_codes_reverse` at validation/__init__.py:14 fails at import time in this revision; the model starts from a module that loads. The import at line 292 is modelled as written only in `Validation.ScoreAsWritten` (see "## Findings"); `Validation.Score`, which Validate, Validation.RunStages and Validation.CheckTasks follow, leaves it out.
- Validation.CheckTasks: models step 5 without the import of `has_direct_path` at validation/__init__.py:292, which raises ImportError as written (see "## Findings").
- Validation.RunStages: leaves out the same ImportError of step 5; its path stage carries the `print_path` exceptions as `Validation.PathScore` states them.
- Routes.MergeTracks lists tracks in first-seen order, where the source's `tuple(set(...))` order is arbitrary. Routes.FromRoute lists countries in first-visit order, where the source uses a set.
- `import_route_data` reads a file and keys a dictionary by every row. Only the conversion of one row is modelled.
- In `convert_trasse.py`, these are not modelled: the file reads and writes, `extend_station`, `group_from_ril100` (a lookup in the operating-points file), and the conversion from station number to RIL100 code at lines 288-293. `tc_statistics.median_high` is a parameter.
- `flatten_objects` and `expand_objects` are not part of this model. Validation takes the flattening as a parameter and the trains' equipment as given.
- Validation.StationRule: the `stations` data set and `country_for_code` are parameters. `project_coordinate_for_station` is not modelled.
- Validation.TcGraph: codes that are not strings do not become graph nodes.
- Validation.DegreeRule: a hidden station whose `ril100` is a number, a boolean or None and no node scores 100 in the model; networkx's `graph.degree` raises NetworkXError from `nbunch_iter` for a number or a boolean, and returns a degree view, which is never 2, for None. An unhashable code is tolerated by networkx as the model has it: `DegreeView.__call__` catches the TypeError and iterates the list or dictionary.
- Validation.DuplicateIdRule: sorting a list of ids that holds a list is treated as a TypeError. The order `sort` leaves equal ids in is not fixed. The duplicate count is proved for every grouped order.
- Validation.Validate (continued): checks 1.1 and 1.2 are disabled in the source and add nothing. The experimental step 5.2 (`validation/__init__.py:303-341`) is not modelled.
- The create_tasks graph, the construction of the `GattungTask` subclasses with their descriptions, `add_sfs_description`, `TcTask.to_dict` and `calculate_plops` are not modelled. A new task record is given to `CreateTasks` as a parameter.
- `deserialize` of the Swiss passenger importer parses a float column and is not modelled. Only the category mapping and the update are.
- Expansion.PairOf: a pair whose key is a number, a boolean or None (hashable but not a string), and a two-key dictionary used as a pair, whose keys come in insertion order, have no value in a model whose dictionary keys are unordered strings; they give the outcome `Unrepresented`.
- Expansion.Update: inherits that `Unrepresented` outcome for a list item holding such a pair.
- Text.ParseInt: accepts only ASCII digits, with a sign and surrounding whitespace as `Text.Strip` removes it (Python's full `str.isspace` set); Python's `int` also accepts underscores between digits ("1_000") and every other Unicode decimal digit, such as U+0663.
- Text.ParseReal: accepts only plain decimal text; Python's `float` also accepts exponents ("1e3"), "inf", "nan", "infinity" and underscores between digits, and rounds to a binary double where the model keeps the exact decimal value.
- ConvertTrasse.LeadingWord: the `\w` of Python's `re` covers every Unicode letter and digit; the helper `ConvertTrasse.IsWordChar` decides it on the ASCII and Latin-1 ranges only (there it is Python's set, the numeric ² ³ ¹ ¼ ½ ¾ included), so the leading word stops early on a code such as "Łódź". ConvertTrasse.RemoveRilExtensions and ConvertTrasse.GetBestRil100 inherit this.
- ConvertTrasse.AccumulateStops: a stop's length is the truncation of the exact difference between its kilometre and the previous stop's (or the start's), while convert_trasse.py:208-227 adds the float differences of the waypoints between them into `distance_to_stop` and truncates that rounded sum; the two can differ by one, for example stops at 2.1 and 4.1 with a waypoint at 2.2 between them give 1 in Python and 2 in the model. Kilometres are exact decimals throughout the model.
- ConvertTrasse.StopEntryMeaning: states the same exact-difference length as ConvertTrasse.AccumulateStops.
- ConvertTrasse.AccumulateAtStop: the accumulated distance is the exact difference of kilometres, not the float sum of the source, as for ConvertTrasse.AccumulateStops.
- ConvertTrasse.ExtendPath: every segment length inherits the exact-difference length of ConvertTrasse.AccumulateStops.
- RouteData.DigitRun: `\d` is decided with the ASCII-only `Text.IsDigit`, while Python's `\d` and `int` accept every Unicode decimal digit (U+0663, say); Countries.UicMatch decides the `\d` of `uic_country` the same way.
- Routes.Merge: through the helper `Routes.Merged`, a missing `twistingFactor` becomes the real 0.0, where the source writes the integer `0`; the field is `Optional[float]`, and the two differ only in the JSON text written.
- PathFile.AddRouteToFiles: `add_stations_to_file` also removes the filtered-out stations from the caller's `route.stations` list; the route's own list is not updated in the model.

## Findings

| source | as written | input that shows it | evidently intended | confidence | as-written member | corrected member |
|---|---|---|---|---|---|---|
| route_data.py:12 | the speed text is read from column 8, which holds the electrification | a Hauptbahn row whose column 10 says "ab X bis Y km/h" with Y at least 250 gets kind 0, an ordinary main line, instead of 2 | read the speed from column 10 | not executed | RouteData.RouteRowAsWritten, RouteData.HighSpeedRowDiffers | RouteData.RouteRow, RouteData.RouteRowIsKindValue |
| importers/db_bahnhoefe.py:26 | column 6, the price category, is appended as the station's code | any row: its category text is no station's code, so `add_hp_information_to_stations` raises KeyError | append column 5, the RIL100 code | not executed | DbBahnhoefe.DeserializeAsWritten, DbBahnhoefe.AsWrittenRowIsUnknown | DbBahnhoefe.Deserialize, DbBahnhoefe.RowFillsItsStation |
| tc_utils/stations.py:16-19 | a station is removed once per known code | a new station with two codes that are both already in the file raises ValueError on the second `remove` | remove each known station once | not executed | StationFile.DropKnownAsWritten, StationFile.DroppingTwiceFails | StationFile.Filter, StationFile.DroppingOnceKeepsNothing, StationFile.FilterMeaning |
| importers/uk_stations.py:17-19 | the flag prefix is the cp1252 reading of its UTF-8 bytes | any record with a TIPLOC code: the code's prefix is not recognised and it counts as German | prefix the British flag | not executed; low: structures/country.py:13-14 carry the same encoding and are read as real flags, so the mojibake may be a re-encoding of the file in this revision rather than what the author committed | UkStations.DeserializeAsWritten, UkStations.AsWrittenCodesAreGerman | UkStations.Deserialize, UkStations.CodesAreBritish |
| validation/__init__.py:292 | step 5 imports `has_direct_path`, which validation/shortest_paths.py does not define; only the experimental step 5.2.2 would use it | any files that the validator would score (once the module loads): the tasks stage raises ImportError, so `validate` never returns a score | import only what step 5 uses, or define `has_direct_path` | not executed | Validation.TasksScoreAsWritten, Validation.ScoreAsWritten, Validation.ScoredFilesFailAsWritten | Validation.TasksScore, Validation.CheckTasks, Validation.ScoreCountsEveryPath |
| tc_utils/formatting.py:41-51 | inside a `neededCapacity` array a line that is neither `{` nor a closing bracket is dropped | `"neededCapacity": [],` (an empty list on one line) followed by any ordinary line: that line is lost | pass such lines through | not executed | Formatting.FormatAsWritten, Formatting.EmptyCapacityLosesLine | Formatting.Format, Formatting.EmptyCapacityKeepsLine, Formatting.FormatKeepsEveryLine |
