# Rounded window corners, modelled in Dafny

This project models the decision, geometry and lifecycle layer of the GNOME Shell extension "rounded-window-corners". The extension gives windows rounded corners with a shader effect and draws a shadow actor behind each window. The model covers:

- **Which windows get the effect and which corner settings they use.** Both generations are modelled: `manager/utils.ts`, with blacklist and whitelist modes, and the older `utils/ui.ts`, blacklist only, which overwrites the override's radius. Each is a pure function over an abstract window and a settings record. The window's cached app type is the only state, and it is returned as a new cache value.
- **Geometry over `real`.** This covers the contents offset, the clip bounds with the kitty-terminal correction, the shadow constraint offsets and the shader uniforms of the rounded-corners effect. It also covers the shadow clones' boxes in workspace switching and in the overview.
- **The per-window record kept by the event handlers.** A window's record is created on add and destroyed on remove. The minimize and unminimize handling follows the magic-lamp effect. The refreshes are dispatched by settings key.
- **The two connection managers.** The event manager and the window-actor tracker are modelled as subscription tables. They defer attaching until an actor has a first child, hold one-shot connections, release connections per object and filter repeated sizes.
- **The extension's entry points.** Enable saves three shell prototype methods and patches them; disable puts them back. Startup is deferred until the shell is ready. The shadow clones live and die in workspace switching and in the overview.
- **The settings store.** It holds the version migration, the key dispatch of `setPref` and the packers of the corner settings.
- **Two small text transforms.** These are the box-shadow CSS string and the shader-file splitter.
- **The preference pages' list and map editing.** This covers the blacklist, the custom overrides, both reset pages, the window-picking row and the background menu item.

Shell objects are abstract state. A window is a datatype, the connection tables are sequences, and the settings store is a map from key to value. Calls between modules are recorded as traces where the source calls code that is not modelled. State that the source changes in place is held in classes. Each method's contract gives the new state in terms of pure functions, and the lemmas beside those functions state what the source promises.

The overview shadow's allocation appears twice in the source: `patch/add_shadow_in_overview.ts:107-142` and `extension.ts:359-392`. They compute the same box. `OverviewShadow.ShadowAllocation` models both, and the patched `_addWindow` and `_prepareWorkspaceSwitch` reuse the overview and workspace-switch models.

## Model

| member | source | states |
|---|---|---|
| ManagerUtils.GetRoundedCornersCfg | src/manager/utils.ts:41-55 | a window whose wm class has an enabled custom override gets that override unchanged; any other window (no class, no override, override disabled) gets the global settings |
| ManagerUtils.DisabledOverrideIgnored | src/manager/utils.ts:46-52 | an override whose `enabled` is off never applies: the window gets the global settings |
| ManagerUtils.WindowScaleFactor | src/manager/utils.ts:83-97 | the scale is 1 exactly when mutter is a Wayland compositor with 'scale-monitor-framebuffer' on, otherwise the scale of the window's monitor |
| ManagerUtils.ComputeWindowContentsOffset | src/manager/utils.ts:141-152 | each offset component added to the buffer rectangle's component gives the frame rectangle's component |
| ManagerUtils.ContentsOffsetMapsBufferToFrame | src/manager/utils.ts:141-152 | an actor bound to the buffer rectangle with the contents offsets covers exactly the frame rectangle |
| ManagerUtils.ComputeBounds | src/manager/utils.ts:104-133 | the bounds are the offsets plus 1 at the top left and the actor's size plus the offsets at the bottom right; only for kitty under Wayland with the kitty tweak on, they are inset by 11, 35, 11, 11 times the window scale |
| ManagerUtils.KittyBoundsInsidePlain | src/manager/utils.ts:117-130 | the kitty tweak only shrinks the rounded area, by 22 scaled pixels in width and 46 in height |
| ManagerUtils.ComputeShadowActorOffset | src/manager/utils.ts:160-178 | the shadow offsets are the contents rectangle grown by SHADOW_PADDING times the window scale on all four sides |
| ManagerUtils.ShadowSurroundsFrame | src/manager/utils.ts:141-178 | the shadow actor bound to the buffer rectangle covers the frame rectangle grown by the scaled shadow padding on every side |
| ManagerUtils.ShadowStyleScales | src/manager/utils.ts:188-230 | the style updateShadowActorStyle sets: padding, radius and margins are scaled by window scale over theme scale, the radius is enlarged by the global smoothing, and the inner box is transparent exactly when the window is maximized in either direction or fullscreen |
| ManagerUtils.GetAppType | src/manager/utils.ts:302-320 | LibHandy exactly when the memory map names libhandy-1.so; LibAdwaita exactly when it names libadwaita-1.so but not libhandy-1.so; Other otherwise and when the map cannot be read |
| ManagerUtils.ShouldEnableEffect | src/manager/utils.ts:238-292 | the effect is enabled exactly when the window is not DING, has a wm class admitted by the list mode, is a normal window or a dialog, its app type is not skipped, and it is neither maximized nor fullscreen unless its settings keep corners in that state; the app-type cache is filled exactly when the window passes the checks before the probe |
| ManagerUtils.ShouldEnableEffectStable | src/manager/utils.ts:272-273 | checking again with the cache the first check left behind gives the same verdict and the same cache |
| ManagerUtils.CachedAppTypeKept | src/manager/utils.ts:272-273 | a cached app type is kept, never probed again |
| ManagerUtils.ListModesExclusive | src/manager/utils.ts:254-260 | for any class, whitelist mode admits it exactly when blacklist mode rejects it |
| ManagerUtils.EmptyWhitelistRejectsAll | src/manager/utils.ts:258-260 | in whitelist mode with an empty list, no window gets the effect |
| ManagerUtils.UpdateShadowActorStyle | src/manager/utils.ts:188-230 | the child is made transparent exactly when the window is maximized in either direction or fullscreen; otherwise it draws the shadow given |
| Settings.ParseKey | src/utils/settings.ts:20-37 | a string read as a schema key is that key's name |
| Settings.KeyNamesParse | src/utils/settings.ts:20-37 | every one of the thirteen key names is read back as its own key, and every key is in the key list |
| Settings.SchemaTypesComplete | src/utils/settings.ts:40-54 | the type table has thirteen distinct keys, and exactly the two corner-settings keys have type a{sv} |
| Settings.PackRoundedCornerSettings | src/utils/settings.ts:157-178 | the packed value is an a{sv} dictionary holding exactly the six corner-setting fields |
| Settings.CornerSettingsRoundTrip | src/utils/settings.ts:157-178 | unpacking packed corner settings gives them back |
| Settings.CornerSettingsPackOfUnpack | src/utils/settings.ts:157-178 | a variant that unpacks is exactly the packing of what it unpacks to |
| Settings.PackCustomRoundedCornerSettings | src/utils/settings.ts:191-201 | the loop yields an a{sv} dictionary with one packed corner-settings entry per window class |
| Settings.PackedIsComprehension | src/utils/settings.ts:194-197 | a dictionary holding the packing of every class, and nothing else, is the packing of the whole map |
| Settings.CustomPackingKeepsClasses | src/utils/settings.ts:191-201 | the custom packing keeps the set of classes, and each class's settings unpack unchanged |
| Settings.PackFor | src/utils/settings.ts:91-106 | the global and custom corner keys use their own packers; every other key is packed by its schema type |
| Settings.NumbersTypedBySchema | src/utils/settings.ts:40-54 | the only numeric keys are settings-version, packed unsigned, and border-width, packed signed |
| Settings.Migrated | src/utils/settings.ts:124-143 | user values with a current version are untouched; outdated ones end with version 7 and are no longer outdated |
| Settings.MigrationKeepsOthers | src/utils/settings.ts:124-143 | a key that is neither reset nor the version keeps its user value, or its absence |
| Settings.MigrationResets | src/utils/settings.ts:130-141 | an outdated store loses its corner settings and shadows, and black-list when listed; border-color stays unless listed; blacklist is kept |
| Settings.MigrationIdempotent | src/utils/settings.ts:124-143 | migrating twice is migrating once |
| Settings.Store.constructor | src/utils/settings.ts:57 | a store holds the keys it lists and its user values |
| Settings.Store.Reset | src/utils/settings.ts:132 | resetting a key removes its user value and nothing else |
| Settings.Store.ResetOutdated | src/utils/settings.ts:124-143 | the store's user values become their migration |
| Settings.Store.ResetChangedKeys | src/utils/settings.ts:131-140 | in the source's order, the changed keys are reset, black-list and border-color only when the schema lists them; nothing else changes |
| Settings.Store.SetValue | src/utils/settings.ts:105 | set_value replaces the one key's user value |
| Settings.Prefs.constructor | src/utils/settings.ts:57 | the binding starts unset |
| Settings.Prefs.InitPrefs | src/utils/settings.ts:64-67 | the settings are migrated before they are kept |
| Settings.Prefs.UninitPrefs | src/utils/settings.ts:70-72 | the binding is dropped |
| Settings.Prefs.SetPref | src/utils/settings.ts:91-106 | the key's user value becomes the value packed for that key, and no other key changes |
| Settings.UnpackRoundedCornerSettings | src/utils/settings.ts:82 | only an a{sv} dictionary with exactly the six corner fields unpacks to corner settings |
| JsArray.IndexOf | src/preferences/pages/blacklist.ts:118 | the result is -1 exactly when the element is absent, and otherwise the first index holding it |
| JsArray.Splice | src/preferences/pages/blacklist.ts:119 | splice keeps the elements before the clamped start, inserts the items there and keeps what follows the clamped deleted run; a negative start counts from the end |
| JsArray.Without | src/preferences/pages/reset.ts:138 | filtering by `!==` drops every occurrence of the element, keeps every other element and adds none |
| JsArray.WithoutCounts | src/preferences/pages/reset.ts:136-138 | filter keeps every other element exactly as many times as it occurs, and no copy of the element |
| JsArray.WithoutAppend | src/preferences/pages/reset.ts:136-138 | filter works element by element: filtering a concatenation is concatenating the filtered parts, so the kept elements keep their order |
| JsArray.WithoutAbsent | src/preferences/pages/reset.ts:138 | filtering out an absent element changes nothing |
| JsArray.DeleteAtIndexOf | src/preferences/pages/blacklist.ts:87 | deleting the one element at indexOf(x) of a duplicate-free list removes x, keeps every other element and stays duplicate-free |
| JsArray.DeleteAtMissingIndex | src/preferences/pages/blacklist.ts:87 | with the element absent, indexOf gives -1 and splice(-1, 1) deletes the last element |
| JsArray.SpliceOneIsUpdate | src/preferences/pages/blacklist.ts:119 | splice(k, 1, x) at an index in range replaces the element at k and changes nothing else |
| JsArray.ReplaceKeepsDistinct | src/preferences/pages/blacklist.ts:119 | replacing at most one element of a duplicate-free list by an absent element lists that element and keeps the list duplicate-free |
| AppRow.Row.constructor | src/preferences/widgets/app_row.ts:36-65 | a new row has the placeholder title, the subtitle it was given, and the entry showing that subtitle through the binding |
| AppRow.Row.TitleChange | src/preferences/widgets/app_row.ts:67-78 | nothing is reported exactly when the entry is empty or equals the subtitle; otherwise the (subtitle, entry) pair of two different classes is handed on |
| AppRow.Row.FinishTitleChange | src/preferences/widgets/app_row.ts:73-81 | the subtitle takes the entry text only when the callback accepted it |
| AppRow.Row.OnPicked | src/preferences/widgets/app_row.ts:88-100 | 'window-not-found' leaves the entry alone and toasts; any other class becomes the entry text |
| BlacklistPage.ChangeReplacesInPlace | src/preferences/pages/blacklist.ts:116-120 | a listed class is replaced where it stands; the length and every other entry stay |
| BlacklistPage.ChangeOfUnlistedReplacesLast | src/preferences/pages/blacklist.ts:116-120 | an old class that is not listed gives index -1, so the last entry is replaced (an empty list just gets the new class) |
| BlacklistPage.ChangeKeepsDistinct | src/preferences/pages/blacklist.ts:98-125 | after an accepted change the new class is listed, and a duplicate-free list stays duplicate-free |
| BlacklistPage.AsWrittenDropsLastClass | src/preferences/pages/blacklist.ts:86-90 | looking up the row title (the placeholder) finds nothing, so the delete drops the last class of the list whatever row was deleted |
| BlacklistPage.AsWrittenKeepsDeletedClass | src/preferences/pages/blacklist.ts:87 | deleting the row for "a" from ["a", "b"] as written leaves ["a"] |
| BlacklistPage.DeleteRemovesRowClass | src/preferences/pages/blacklist.ts:86-90 | the delete by subtitle removes exactly the row's class from a duplicate-free list |
| BlacklistPage.Page.constructor | src/preferences/pages/blacklist.ts:31 | the page starts from the stored blacklist |
| BlacklistPage.Page.ChangeWindow | src/preferences/pages/blacklist.ts:98-125 | the change is accepted exactly when the new class is not listed; a rejection changes nothing and toasts; an acceptance appends (new row) or replaces at indexOf(old) and writes the list back |
| BlacklistPage.Page.DeleteWindowAsWritten | src/preferences/pages/blacklist.ts:86-90 | the list loses the entry at indexOf(row.title), is written back, and the row is removed |
| BlacklistPage.Page.DeleteWindow | src/preferences/pages/blacklist.ts:86-90 | the list loses the entry at indexOf(row.subtitle), is written back, and the row is removed |
| BlacklistPage.Page.OnApply | src/preferences/widgets/app_row.ts:67-82 | an unchanged or empty entry changes nothing; a listed class toasts and leaves the list, the stored setting, the subtitle and the entry as they were; otherwise the list changes, is written to the stored setting, the subtitle takes the new class and no toast is shown |
| BlacklistPage.Page.OnDelete | src/preferences/widgets/app_row.ts:84-86 | the remove button runs the delete as written: the list loses the entry at indexOf(row.title), the stored setting takes that list, and the row goes |
| BlacklistPage.Changed | src/preferences/pages/blacklist.ts:112-120 | after a change the new class is listed; a push (old class empty) or a splice into an empty list adds one entry, any other splice replaces one |
| BlacklistPage.DeletedAsWritten | src/preferences/pages/blacklist.ts:86-90 | the splice at indexOf(row.title) removes one entry from a non-empty list and adds none |
| BlacklistPage.Deleted | src/preferences/pages/blacklist.ts:86-90 | the splice at indexOf(row.subtitle) removes one entry from a non-empty list and adds none |
| CustomPage.RenameMovesOverride | src/preferences/pages/custom.ts:109-114 | renaming moves the override: the old class is gone, the new one holds the old override, every other class keeps its own, the number of overrides stays |
| CustomPage.NewClassStartsFromGlobal | src/preferences/pages/custom.ts:103-108 | a new row's class starts from a copy of the global settings and the map gains exactly that key |
| CustomPage.Read | src/preferences/pages/custom.ts:140-142 | a widget shows a value of its own field |
| CustomPage.Write | src/preferences/pages/custom.ts:143-282 | a widget handler's assignment sets its own field to the widget's value and leaves every other field as it was |
| CustomPage.FieldsDetermineOverride | src/preferences/pages/custom.ts:131-282 | the ten widgets cover an override: two overrides that show alike on all of them are equal |
| CustomPage.WriteOfReadIsIdentity | src/preferences/pages/custom.ts:131-282 | writing back the value a widget shows changes nothing |
| CustomPage.SettingsRow.constructor | src/preferences/pages/custom.ts:57 | a new row wraps its app row and shows no override yet |
| CustomPage.Page.constructor | src/preferences/pages/custom.ts:36 | the page starts from the stored custom overrides |
| CustomPage.Page.DeleteWindowConfig | src/preferences/pages/custom.ts:69-76 | the key equal to the row's subtitle is removed, the map is written back and the row removed |
| CustomPage.Page.ChangeWindow | src/preferences/pages/custom.ts:85-124 | the change is accepted exactly when the new class has no override; a rejection changes nothing and toasts; an acceptance creates or moves the override, shows it in the row and writes the map back |
| CustomPage.Page.BindRowSettings | src/preferences/pages/custom.ts:131-142 | the row's widgets show the class's override |
| CustomPage.Page.OnFieldChanged | src/preferences/pages/custom.ts:143-282 | one field of the class's override takes the widget's value, and the map is written back |
| CustomPage.Page.OnApply | src/preferences/widgets/app_row.ts:67-82 | an unchanged or empty entry changes nothing; a class that has an override toasts and leaves the map, the stored setting, the row's widgets, subtitle and entry as they were; otherwise the override is renamed, the row's widgets show it, the stored setting takes the new map, the subtitle takes the new class and no toast is shown |
| CustomPage.Renamed | src/preferences/pages/custom.ts:102-114 | the keys lose the old class, when there is one, and gain the new one, which holds the old override or, for a new row, the global settings |
| ResetPage.LabelTable | src/preferences/pages/reset.ts:48-62 | the table lists six schema keys, then five corner fields: every corner field but `enabled` |
| ResetPage.CopyFieldExactly | src/preferences/pages/reset.ts:101-102 | copying a named field gives it its default value and keeps every other field |
| ResetPage.TopKeysExactly | src/preferences/pages/reset.ts:96-100 | the keys reset are exactly the selected names that are schema keys |
| ResetPage.ResetFieldsExactly | src/preferences/pages/reset.ts:96-104 | a selected corner field takes its default, an unselected one keeps its current value |
| ResetPage.CornerFieldsAreNotKeys | src/preferences/pages/reset.ts:96-104 | a corner-field name is never a schema key, so the loop copies it rather than resetting it |
| ResetPage.Page.constructor | src/preferences/pages/reset.ts:45 | nothing is selected at first |
| ResetPage.Page.OnToggled | src/preferences/pages/reset.ts:132-140 | switching on appends the name; switching off removes every occurrence of it |
| ResetPage.Page.Reset | src/preferences/pages/reset.ts:80-109 | 'cancel' changes nothing; otherwise the selected schema keys lose their user values and the global settings become the current ones with the selected fields from the defaults |
| ResetPage.Page.ResetSelected | src/preferences/pages/reset.ts:93-104 | the selected schema keys lose their user values and the other selected names are copied from the defaults, in selection order |
| ResetPage.SelectedStep | src/preferences/pages/reset.ts:93-104 | one more selected name either joins the reset keys or copies its field |
| ResetPage.CopyField | src/preferences/pages/reset.ts:101-102 | copying a named field gives it the default and keeps every other field |
| ResetPage.TopKeys | src/preferences/pages/reset.ts:96-100 | every key reset is a schema key |
| ResetPage.ResetFields | src/preferences/pages/reset.ts:96-104 | every field not selected keeps its current value |
| ResetWidget.AllOff | src/preferences/widgets/reset_page.ts:54-75 | the flag table holds exactly the given names, every flag off |
| ResetWidget.FlaggedExactly | src/preferences/widgets/reset_page.ts:130-135 | the keys reset are exactly the table's keys whose flag is on |
| ResetWidget.FlaggedFieldsExactly | src/preferences/widgets/reset_page.ts:142-148 | a flagged corner field takes its default; every other field, borderColor and enabled among them, keeps its current value |
| ResetWidget.Page.constructor | src/preferences/widgets/reset_page.ts:46-75 | both tables hold exactly their fixed entries, all off |
| ResetWidget.Page.OnToggled | src/preferences/widgets/reset_page.ts:97-110 | a corner-field name takes the switch state in the corner table; failing that a key name in the key table; an unknown name changes nothing; the tables keep their entries |
| ResetWidget.Page.Reset | src/preferences/widgets/reset_page.ts:125-153 | 'cancel' changes nothing; otherwise the flagged keys lose their user values and the global settings become the current ones with the flagged fields from the defaults |
| ResetWidget.NothingFlaggedResetsNothing | src/preferences/widgets/reset_page.ts:125-153 | with every flag off a reset removes no key and rewrites the global settings unchanged |
| ResetWidget.UnflaggedFieldsKept | src/preferences/widgets/reset_page.ts:142-148 | with no field flagged the corner loop keeps the settings as they are |
| ShadowCss.NumbersInOrder | src/utils/box_shadow.ts:16-22 | the CSS carries the horizontal offset, vertical offset, blur and spread times the scale, in that order, then the opacity divided by 100, unscaled |
| ShadowCss.FixedText | src/utils/box_shadow.ts:16-22 | the text around the numbers, the black colour included, is the same for every shadow and scale |
| ShadowCss.ShadowRecoverable | src/utils/box_shadow.ts:16-22 | at any non-zero scale the five numbers of the CSS determine the shadow |
| ShadowCss.DefaultScaleKeepsValues | src/utils/box_shadow.ts:16 | with the default scale 1 the CSS carries the raw lengths |
| ShadowCss.RenderStartsWithProperty | src/utils/box_shadow.ts:17 | the rendered CSS starts with the `box-shadow: ` property name |
| ShadowCss.Template | src/utils/box_shadow.ts:17-21 | the template has eleven parts that alternate text and numbers, five numbers in all, opening with `box-shadow: ` and closing with `)` |
| ShadowCss.BoxShadowCss | src/utils/box_shadow.ts:16-22 | the CSS of any shadow at any scale opens with `box-shadow: ` and closes with `)`, in eleven parts |
| ShadowCss.Render | src/utils/box_shadow.ts:17-21 | rendering a template that opens with text yields a string that starts with that text |
| ShaderFile.TrimStart | src/utils/file.ts:51 | the result is a suffix of the text, everything cut off is space, and it does not start with a space |
| ShaderFile.TrimEnd | src/utils/file.ts:51 | the result is a prefix of the text, everything cut off is space, and it does not end with a space |
| ShaderFile.Trim | src/utils/file.ts:51 | the trimmed text is no longer than the text and neither starts nor ends with a space |
| ShaderFile.TrimCutsOnlySpaces | src/utils/file.ts:51-52 | trim keeps one contiguous slice of the text and cuts off only spaces at either end |
| ShaderFile.TrimIsSlice | src/utils/file.ts:51 | the trimmed text is the slice of the text that starts where trimStart stopped |
| ShaderFile.TrimEndCutsSpaces | src/utils/file.ts:51 | everything after the trimmed slice is space |
| ShaderFile.TrimIdempotent | src/utils/file.ts:52 | trimming twice is trimming once |
| ShaderFile.MainTail | src/utils/file.ts:50 | a match of `main\(\s?\)\s?` starts with "main(" and ends within the text, at least six characters on |
| ShaderFile.LazyMain | src/utils/file.ts:50 | a match of the lazy `.*?` lies at or after its start, at a position where `main(...)` matches, and ends where that match ends |
| ShaderFile.LazyMainIsFirst | src/utils/file.ts:50 | the lazy `.*?` stops at the first position where `main(...)` matches, with no line terminator before it |
| ShaderFile.LazyMainMisses | src/utils/file.ts:50 | the lazy `.*?` finds nothing only when every later position where `main(...)` matches lies past a line terminator |
| ShaderFile.MatchAt | src/utils/file.ts:50 | a match of the expression at a position ends within the text, at least six characters on |
| ShaderFile.NextMatch | src/utils/file.ts:50 | a position the split's search finds lies at or after its start, within the text, and the expression matches there, ending within the text |
| ShaderFile.NextMatchIsFirst | src/utils/file.ts:50 | the found position is the first from the start at which the expression matches, and the search finds nothing only when the expression matches nowhere from the start on |
| ShaderFile.ReadShader | src/utils/file.ts:45-54 | there is a result exactly when some line matches the expression; then both the declarations and the code are trimmed at both ends |
| ShaderFile.DeclarationsEndAtFirstMain | src/utils/file.ts:50-51 | the declarations are the trimmed text before the first position where the expression matches |
| ShaderFile.UnbracedAppend | src/utils/file.ts:52 | dropping braces distributes over concatenation |
| ShaderFile.StripKeepsOtherCharacters | src/utils/file.ts:52 | the brace replace deletes only braces: every other character, line terminators included, stays, in order |
| ShaderFile.StripFromKeepsOtherCharacters | src/utils/file.ts:52 | from any position on, the replace keeps every character but braces |
| ShaderFile.AtMostOnePerLine | src/utils/file.ts:52 | the replace deletes at most one character per line |
| ShaderFile.StripFromPerLine | src/utils/file.ts:52 | from any position on, the replace deletes at most one character per line start |
| ShaderFile.NoLineStartBraceUnchanged | src/utils/file.ts:52 | a body with no brace at the start of a line comes through the replace unchanged |
| ShaderFile.StripFromUnchanged | src/utils/file.ts:52 | from any position on, a text without line-start braces is kept as it is |
| ShaderFile.StripFrom | src/utils/file.ts:52 | from any position on, the replace never lengthens the text |
| ShaderFile.StripBraces | src/utils/file.ts:52 | the brace replace never lengthens the text |
| Ui.LiteralIsMatch | src/utils/ui.ts:51-55 | a literal occurrence of the text is also a match of the same text read as a pattern |
| Ui.GetAppType | src/utils/ui.ts:47-64 | LibHandy exactly when the map matches /libhandy-1.so/; LibAdwaita exactly when it matches /libadwaita-1.so/ and not the first; Other otherwise and when the map cannot be read |
| Ui.ProbeCoversLiteralProbe | src/utils/ui.ts:47-64 | where the literal probe finds libhandy so does the regex probe, and where the regex probe finds nothing so does the literal one |
| Ui.WildcardDotMatchesAnyCharacter | src/utils/ui.ts:51 | the unescaped `.` makes a map mentioning "libhandy-1_so" count as libhandy, which the literal probe does not |
| Ui.WindowScaleFactor | src/utils/ui.ts:70-87 | 1 under fractional scaling; otherwise the scale of the window's monitor, or of the current monitor when no window is given |
| Ui.ScaleFactorAgrees | src/utils/ui.ts:70-87 | given a window, this is the scale factor of the newer helper |
| Ui.AddBackgroundMenuItem | src/utils/ui.ts:103-119 | the entry is added unless an item with its label, of any kind, is already there |
| Ui.SetupBackgroundMenu | src/utils/ui.ts:122-128 | every background's menu gets the entry added |
| Ui.RestoreBackgroundMenu | src/utils/ui.ts:130-147 | in every background's menu the first item with the entry's label is destroyed |
| Ui.GetRoundedCornersCfg | src/utils/ui.ts:154-169 | an enabled override is returned with the global border radius, and that overwrite is stored into the custom table; otherwise the global settings with the table untouched |
| Ui.CfgIsNewerCfgWithGlobalRadius | src/utils/ui.ts:154-169 | every window gets the settings the newer lookup picks, with the global border radius |
| Ui.StoredOverwriteInvisible | src/utils/ui.ts:165-168 | the overwrite stored by one lookup changes no later lookup for any window |
| Ui.ShouldEnableEffect | src/utils/ui.ts:177-230 | the effect is enabled exactly when the window is not DING, has an unlisted wm class, is a normal window or a dialog, its app type is not skipped, and its settings keep corners in its maximized or fullscreen state; the cache is filled exactly when the checks before the probe pass; the custom table is overwritten exactly when those checks pass and the app type is not skipped, and otherwise left as it was |
| Ui.AgreesWithBlacklistMode | src/utils/ui.ts:194-196 | once the app type is known, the older verdict is the newer one in blacklist mode |
| Ui.ShouldEnableEffectStable | src/utils/ui.ts:210-211 | checking again with the cache and table left behind gives the same verdict, cache and table |
| BackgroundMenu.CountRwc | src/utils/background_menu.ts:52-59 | the number of the extension's entries in a menu is at most its length and zero exactly when the menu has none |
| BackgroundMenu.FirstRwc | src/utils/background_menu.ts:75-83 | the index found is the first item that is the extension's entry, and none is found exactly when there is no such item |
| BackgroundMenu.AddIdempotent | src/utils/background_menu.ts:48-65 | once added the entry is present, adding again changes nothing, and a menu with at most one entry ends with exactly one |
| BackgroundMenu.CountAppend | src/utils/background_menu.ts:52-59 | the entries of two item lists put together are counted as the sum of both |
| BackgroundMenu.RemoveDropsOne | src/utils/background_menu.ts:72-84 | removing lowers the number of entries by exactly one, or changes nothing when there is none |
| BackgroundMenu.RemoveUndoesAdd | src/utils/background_menu.ts:28-41 | disabling after enabling gives back a menu that had no entry before |
| BackgroundMenu.Menu.constructor | src/utils/background_menu.ts:23-25 | a menu holds the items given |
| BackgroundMenu.Menu.AddItem | src/utils/background_menu.ts:48-65 | the entry is appended unless an item already carries it |
| BackgroundMenu.Menu.RemoveItem | src/utils/background_menu.ts:72-84 | the first item that is the entry is destroyed, and nothing else |
| BackgroundMenu.EnableBackgroundMenuItem | src/utils/background_menu.ts:28-33 | every background's menu gets the entry added |
| BackgroundMenu.DisableBackgroundMenuItem | src/utils/background_menu.ts:36-41 | every background's menu loses its first entry |
| BackgroundMenu.WithRwcItem | src/utils/background_menu.ts:48-65 | after adding, the menu holds the entry; the old items stay in front and at most one item is added |
| BackgroundMenu.WithoutFirstRwc | src/utils/background_menu.ts:72-84 | removing drops exactly one item when the menu holds the entry and none otherwise, and adds nothing |
| MagicLamp.FirstFinishedFrame | src/manager/event_handlers.ts:131-138 | the frame found is the first one whose progress is past 0.98; none is found exactly when no frame gets past it |
| MagicLamp.RunFrameHandler | src/manager/event_handlers.ts:131-138 | a handler that acts once and then disconnects acts at the first frame past 0.98, and never when there is none |
| MagicLamp.FirstIsUnique | src/manager/effect_manager.ts:125-133 | if no frame before k is past 0.98, the first finished frame is k when k is past it, and there is none when k is the end |
| RoundedCornersEffect.ArrayAt | src/effect/rounded_corners_effect.ts:103-104 | an index within the array reads its element; any other index reads undefined |
| RoundedCornersEffect.JsSub | src/effect/rounded_corners_effect.ts:103-104 | a difference is a number exactly when both operands are, and then it is their difference |
| RoundedCornersEffect.JsMin | src/effect/rounded_corners_effect.ts:102-105 | Math.min is a number exactly when both arguments are, and then it is the smaller of them |
| RoundedCornersEffect.PaddedBounds | src/effect/rounded_corners_effect.ts:75-80 | the padded bounds have four entries |
| RoundedCornersEffect.Inset | src/effect/rounded_corners_effect.ts:82-87 | the bordered-area bounds lie the border width inside the bounds on every side |
| RoundedCornersEffect.InnerRadiusBase | src/effect/rounded_corners_effect.ts:89-92 | the inner radius is the outer radius less the border width, or 0 when that is below 0.001 |
| RoundedCornersEffect.ClampRadius | src/effect/rounded_corners_effect.ts:106-109 | a radius above the limit becomes the limit and the exponent shrinks in the same proportion; otherwise, a NaN limit included, both stay |
| RoundedCornersEffect.UniformsAsWritten | src/effect/rounded_corners_effect.ts:64-122 | the uniforms as the code computes them, with four bounds, four bordered-area bounds and two pixel steps |
| RoundedCornersEffect.AsWrittenNeverClamps | src/effect/rounded_corners_effect.ts:102-109 | as written the limit reads bounds[4], so it is NaN and the clamp never fires: the radius is always half the outer radius times the unclamped exponent |
| RoundedCornersEffect.AsWrittenRadiusExceedsWindow | src/effect/rounded_corners_effect.ts:100-109 | a 40 by 40 window with radius 12 at full smoothing gets a clip radius of 72, larger than the window |
| RoundedCornersEffect.MaxRadius | src/effect/rounded_corners_effect.ts:102-105 | the limit is the smaller of the bounds' width and height |
| RoundedCornersEffect.CorrectedIndicesGiveSmallerSide | src/effect/rounded_corners_effect.ts:102-105 | the code's own Math.min expression, with its indices moved to 2 and 3, is exactly that limit, with no halving |
| RoundedCornersEffect.IntendedUniforms | src/effect/rounded_corners_effect.ts:64-122 | the bounds are the window bounds less the scaled padding, the bordered area lies the scaled border width inside them, there are two pixel steps, and the clip radius is half the outer radius times the unclamped exponent, cut down to the smaller side of the bounds when it exceeds it |
| RoundedCornersEffect.IntendedPixelStep | src/effect/rounded_corners_effect.ts:94-97 | the pixel steps are the reciprocals of the actor's width and height |
| RoundedCornersEffect.ClampProportional | src/effect/rounded_corners_effect.ts:100-109 | clamped or not, the radius stays half the outer radius times the exponent |
| RoundedCornersEffect.IntendedRadiusFollowsExponent | src/effect/rounded_corners_effect.ts:100-109 | with the intended clamp, the clip radius is half the outer radius times the final exponent |
| RoundedCornersEffect.InnerRadiusInProportion | src/effect/rounded_corners_effect.ts:89-110 | whatever the clamp gives, the inner clip radius stands to the inner radius as the clip radius to the outer radius |
| RoundedCornersEffect.IntendedInnerRadiusInProportion | src/effect/rounded_corners_effect.ts:89-110 | with the intended clamp, the inner clip radius stands to the inner radius as the clip radius to the outer radius |
| RoundedCornersEffect.ClampKeepsRatio | src/effect/rounded_corners_effect.ts:106-109 | scaling the exponent by limit over radius brings the radius to exactly the limit |
| RoundedCornersEffect.AsWrittenAgreesWhenRadiusFits | src/effect/rounded_corners_effect.ts:100-110 | where the radius fits anyway, the code as written computes the intended uniforms |
| RoundedCornersEffect.UniformWrites | src/effect/rounded_corners_effect.ts:124-150 | #setUniforms makes eight writes |
| RoundedCornersEffect.WritesMatchDeclaredCounts | src/effect/rounded_corners_effect.ts:124-150 | for uniforms of the shapes updateUniforms produces, as written or corrected, every write passes as many values as it declares, and every uniform is written |
| RoundedCornersEffect.UniformTable.constructor | src/effect/rounded_corners_effect.ts:16-25 | the shared table starts with every uniform at location 0 |
| RoundedCornersEffect.Effect.constructor | src/effect/rounded_corners_effect.ts:38-45 | the constructor stores the location of every uniform in the shared table and changes no other entry |
| RoundedCornersEffect.Effect.SetUniforms | src/effect/rounded_corners_effect.ts:124-150 | the eight writes are made in order, followed by one repaint request |
| RoundedCornersEffect.Effect.UpdateUniforms | src/effect/rounded_corners_effect.ts:64-122 | the effect writes the uniforms exactly as the code computes them, with a NaN limit and so an unclamped radius, then asks for one repaint |
| RoundedCornersEffect.Effect.UpdateUniformsIntended | src/effect/rounded_corners_effect.ts:64-122 | with the limit corrected, the effect writes the uniforms whose radius is cut down to the smaller side of the bounds, then asks for one repaint |
| EventHandlers.RefreshFor | src/manager/event_handlers.ts:161-181 | the skip keys and 'black-list' refresh the effect state, the two shadow keys all shadows, the corner, border and kitty keys all rounded corners, and any other key nothing |
| EventHandlers.QuadValues | src/manager/event_handlers.ts:433 | the offsets are handed on as four numbers |
| EventHandlers.ShadowOffsetsFor | src/manager/event_handlers.ts:275-293 | the shadow constraints get four offsets |
| EventHandlers.UniformsCallWellFormed | src/manager/event_handlers.ts:418-429 | with no zero scale, size or radius around, every call to the effect has well-formed inputs and carries the global border radius |
| EventHandlers.ConsistentCacheIrrelevant | src/utils/ui.ts:210-211 | a cache that holds only probe results never changes a verdict |
| EventHandlers.RestackOrder | src/manager/event_handlers.ts:144-155 | exactly the visible actors that carry a record are restacked |
| EventHandlers.Handlers.constructor | src/manager/event_handlers.ts:73-76 | no window has an effect, a record or a cached app type at first |
| EventHandlers.Handlers.ShouldEnable | src/utils/ui.ts:177-230 | the verdict is the window's verdict whatever the cache holds, and a window is probed at most once |
| EventHandlers.StyleFor | src/manager/event_handlers.ts:371-385 | the shadow child is transparent exactly for a maximized or fullscreen window, and otherwise draws the focused shadow for a focused window and the unfocused one for any other |
| EventHandlers.Handlers.RefreshShadow | src/manager/event_handlers.ts:371-385 | a window with a record gets its shadow restyled with the focused or unfocused shadow and its own radius and padding; a window without one changes nothing |
| EventHandlers.Handlers.SetConstraintOffsets | src/manager/event_handlers.ts:434-439 | each of the four constraints gets, in order, its offset |
| EventHandlers.Handlers.RefreshRoundedCorners | src/manager/event_handlers.ts:397-440 | only a window with both effect and record changes: its effect takes the verdict, the shadow is restyled when the verdict flips, the uniforms are pushed and the constraints rebound |
| EventHandlers.Handlers.SyncEnabled | src/manager/event_handlers.ts:410-416 | the effect takes the verdict, and the shadow is restyled exactly when that flips it |
| EventHandlers.Handlers.PushGeometry | src/manager/event_handlers.ts:418-439 | the effect receives the window's uniforms and the shadow's constraints the grown contents offsets |
| EventHandlers.Handlers.OnAddEffect | src/manager/event_handlers.ts:36-81 | a record is added exactly when the window should be rounded; then the window gets an enabled effect, its uniforms, and a record whose new shadow is bound to its visibility, constrained by its offsets and styled, and no other window's effect, uniforms or record changes; otherwise nothing but the app-type cache changes |
| EventHandlers.Handlers.AddEffect | src/manager/event_handlers.ts:45-81 | for a window that should be rounded: an enabled effect, its uniforms, and a new record with a new shadow bound, constrained and styled; nothing else changes |
| EventHandlers.Handlers.AttachAndBind | src/manager/event_handlers.ts:45-79 | the effect and a new shadow attached and the corners refreshed: the new record's shadow is bound to the window's visibility and constrained by its offsets, not yet styled |
| EventHandlers.Handlers.AttachEffectAndShadow | src/manager/event_handlers.ts:45-76 | an enabled effect and a fresh shadow with zero offsets are attached and the new record is stored |
| EventHandlers.Handlers.OnRemoveEffect | src/manager/event_handlers.ts:83-106 | the effect, uniforms and record go; the shadow is destroyed; a pending timeout is removed |
| EventHandlers.Handlers.OnMinimize | src/manager/event_handlers.ts:108-118 | with the magic-lamp minimize effect present the shadow is hidden; otherwise nothing changes |
| EventHandlers.Handlers.OnUnminimize | src/manager/event_handlers.ts:120-142 | with the magic-lamp unminimize effect present the shadow is hidden and shown again on the first frame past 98%; otherwise nothing changes |
| EventHandlers.Handlers.OnRestacked | src/manager/event_handlers.ts:144-155 | every visible window with a record has its shadow placed below it, in stacking order |
| EventHandlers.Handlers.RestackPrefix | src/manager/event_handlers.ts:145-154 | one loop step restacks the next actor exactly when it is visible and has a record |
| EventHandlers.Handlers.RestackAppend | src/manager/event_handlers.ts:145-154 | restacking two runs of actors is restacking each in turn |
| EventHandlers.Handlers.RefreshAllShadows | src/manager/event_handlers.ts:388-390 | every window with a record has its shadow restyled; nothing else changes |
| EventHandlers.Handlers.RestyleNext | src/manager/event_handlers.ts:388-390 | one step of refreshAllShadows: the windows so far, and the next one, have their shadows restyled; every other record is as before |
| EventHandlers.Handlers.RefreshAllRoundedCorners | src/manager/event_handlers.ts:442-445 | every window's corners are refreshed, then every shadow is restyled |
| EventHandlers.Handlers.RefreshNext | src/manager/event_handlers.ts:442-445 | one step of refreshAllRoundedCorners: the windows so far, and the next one, have their corners refreshed, and no effect or record is added or removed |
| EventHandlers.Handlers.RefreshEffectState | src/manager/event_handlers.ts:348-364 | the first window whose effect disagrees with its verdict gets the effect added or removed and the walk stops; with none found, every window already agrees |
| EventHandlers.Handlers.FixEffect | src/manager/event_handlers.ts:353-361 | the window that disagreed with its verdict gets the effect added or removed, and no other window gains or loses one |
| EventHandlers.Handlers.OnSettingsChanged | src/manager/event_handlers.ts:161-181 | each key runs the refresh it calls for; an unrelated key changes nothing |
| EventHandlers.UniformsCallBorder | src/manager/event_handlers.ts:421-430 | for a recorded call the effect accepts, the uniforms it computes take the border width from the border-width preference times the scale and the border colour from the window's settings, whatever the ignored fourth argument holds |
| EventManager.WindowSubscriptions | src/manager/event_manager.ts:136-151 | a window gets four connections: two size ones (actor and texture) and two focus ones on its Meta.Window |
| EventManager.Dispatch | src/manager/event_manager.ts:17 | an emission calls at most one handler per connection |
| EventManager.DispatchExactly | src/manager/event_manager.ts:17 | an emission calls a handler exactly when a connection for that object, signal and handler exists |
| EventManager.DisconnectAll | src/manager/event_manager.ts:163-164 | disconnect_all never adds connections |
| EventManager.DisconnectAllExactly | src/manager/event_manager.ts:163-164 | disconnect_all(object) keeps exactly the connections on other objects |
| EventManager.DisconnectAllIdempotent | src/manager/event_manager.ts:163-164 | disconnecting an object twice is disconnecting it once |
| EventManager.DisconnectAllAppend | src/manager/event_manager.ts:163-164 | disconnect_all works connection by connection, preserving order |
| EventManager.RemovalSilencesWindow | src/manager/event_manager.ts:161-168 | after removeEffectFrom no signal of the actor or of its Meta.Window calls a handler |
| EventManager.RemovalKeepsTextureConnection | src/manager/event_manager.ts:139-141 | the texture's size-changed connection survives removeEffectFrom, so a texture resize still reaches the size handler |
| EventManager.AppliedWindowReactsToResize | src/manager/event_manager.ts:139-141 | once a window's connections are made, a texture resize calls the size handler for it |
| EventManager.EmptyDispatch | src/manager/event_manager.ts:17 | an object without connections calls no handler |
| EventManager.DispatchAppend | src/manager/event_manager.ts:17 | later connections are called after earlier ones |
| EventManager.ApplyOutcome | src/manager/event_manager.ts:116-128 | the effect is applied exactly when the actor has a first child and a texture |
| EventManager.AppliedToExactly | src/manager/event_manager.ts:41-43 | enableEffect gives the effect to exactly the current windows with a first child and a texture |
| EventManager.AppliedToAppend | src/manager/event_manager.ts:41-43 | the loop treats the windows one at a time, in order |
| EventManager.AppliedToStep | src/manager/event_manager.ts:41-43 | one loop step adds the next window exactly when it gets the effect |
| EventManager.SubscriptionsOf | src/manager/event_manager.ts:136-151 | four connections per window given the effect |
| EventManager.SubscriptionsOfAppend | src/manager/event_manager.ts:136-151 | the connections are made window by window |
| EventManager.AddCalls | src/manager/event_manager.ts:153 | one onAddEffect call per window given the effect |
| EventManager.AddCallsAppend | src/manager/event_manager.ts:153 | the calls are made window by window |
| EventManager.UnparentedExactly | src/manager/event_manager.ts:116-123 | exactly the windows without a first child are waited for |
| EventManager.UnparentedAppend | src/manager/event_manager.ts:41-43 | the waits are made window by window |
| EventManager.UnparentedStep | src/manager/event_manager.ts:41-43 | one loop step adds a wait exactly for a window without a first child |
| EventManager.FirstChildWaits | src/manager/event_manager.ts:117-120 | one notify::first-child connection per waiting window |
| EventManager.FirstChildWaitsAt | src/manager/event_manager.ts:117-120 | the k-th wait is on the k-th waiting actor, with the k-th id |
| EventManager.FirstChildWaitsAppend | src/manager/event_manager.ts:117-120 | waits are numbered consecutively across loop steps |
| EventManager.Manager.constructor | src/manager/event_manager.ts:17 | the manager starts with no connections and no calls |
| EventManager.Manager.ApplyEffectTo | src/manager/event_manager.ts:112-154 | without a first child one wait is added; without a texture nothing changes; otherwise the four connections are made and onAddEffect is called |
| EventManager.Manager.RemoveEffectFrom | src/manager/event_manager.ts:161-168 | the actor's and its window's connections are dropped and onRemoveEffect is called |
| EventManager.Manager.EnableEffect | src/manager/event_manager.ts:27-92 | the settings connection, then every current window's connections in order, then the five global ones; one onAddEffect per window given the effect; one wait per window without a first child |
| EventManager.Manager.ApplyNext | src/manager/event_manager.ts:41-43 | one step of the loop of enableEffect: the connections, calls and waits grow by those of the next window |
| EventManager.Manager.DisableEffect | src/manager/event_manager.ts:95-101 | every window of global.get_window_actors() at disable time, those created after enable included, gets onRemoveEffect in order, then no connection is left |
| EventManager.Manager.OnWindowCreated | src/manager/event_manager.ts:49-62 | a window without a WM class gets a notify::wm-class wait and nothing else; any other window gets exactly what applyEffectTo gives it: its four connections and the add call when ready, a first-child wait when it has no first child, nothing without a texture |
| EventManager.Manager.SetFirstChild | src/manager/event_manager.ts:116 | the shell gives the actor its first child |
| EventManager.Manager.SetWmClass | src/manager/event_manager.ts:54 | the shell gives the window its WM class |
| EventManager.Manager.FireOneShot | src/manager/event_manager.ts:55-58 | a fired wait (for a WM class, or for a first child as at lines 117-120) runs applyEffectTo on its window: the table, the handler calls and the waits change exactly as applyEffectTo leaves them, and the fired wait alone is removed |
| EffectManager.RunCalls | src/manager/effect_manager.ts:33-37 | run calls the callback once per manager |
| EffectManager.RunCallsAt | src/manager/effect_manager.ts:33-37 | the k-th call goes to the k-th manager of the list |
| EffectManager.ReadyCalls | src/manager/effect_manager.ts:235-239 | each manager gets on_add_effect, on_size_changed and on_focus_changed, in that order, before the next manager |
| EffectManager.SizeNotification | src/manager/effect_manager.ts:194-202 | a deleted record stops the handler; otherwise the stored size becomes the current one and the managers are told exactly when it differed |
| EffectManager.RepeatedSizeIsFiltered | src/manager/effect_manager.ts:194-202 | a second notification of the same size tells no manager and stores nothing new |
| EffectManager.DisconnectAll | src/manager/effect_manager.ts:260-263 | disconnect_all never adds connections |
| EffectManager.DisconnectAllExactly | src/manager/effect_manager.ts:260-263 | disconnect_all(object) keeps exactly the connections on other objects |
| EffectManager.RemovalReleasesWindow | src/manager/effect_manager.ts:258-264 | _remove_effect keeps exactly the connections not on the texture, the actor, its Meta.Window or its first child |
| EffectManager.Tracker.constructor | src/manager/effect_manager.ts:22-29 | no managers, no connections (null), no stored sizes |
| EffectManager.Tracker.Run | src/manager/effect_manager.ts:33-37 | every manager gets the callback, in list order |
| EffectManager.Tracker.RunCallsStep | src/manager/effect_manager.ts:34-36 | one loop step runs the callback on the next manager |
| EffectManager.Tracker.ActorIsReady | src/manager/effect_manager.ts:179-240 | without connections or a texture nothing changes; otherwise exactly the four connections are appended, a zero size stored, a one-shot surface notify::size added from shell 43.1 on, and add, size and focus run on every manager |
| EffectManager.Tracker.RunReadyHandlers | src/manager/effect_manager.ts:235-239 | the loop at the end of actorIsReady adds, manager by manager, onAddEffect, onSizeChanged and onFocusChanged |
| EffectManager.Tracker.ReadyCallsStep | src/manager/effect_manager.ts:235-239 | one loop step adds the next manager's three calls |
| EffectManager.Tracker.AddEffect | src/manager/effect_manager.ts:178-253 | an actor with a first child is made ready now, with every field as actor_is_ready leaves it; any other gets a notify::first-child wait and nothing else |
| EffectManager.Tracker.Enable | src/manager/effect_manager.ts:40-159 | the one new manager; the connections are exactly the settings one, the four of each ready current window in order, then the six global ones; a zero size stored for each ready window; the waits _add_effect leaves per window, numbered on from the old counter; the add triple run on exactly the ready windows, in order |
| EffectManager.Tracker.RemoveEffect | src/manager/effect_manager.ts:255-266 | the stored size goes; the window's connections go when there are connections and a texture; on_remove_effect runs on every manager |
| EffectManager.Tracker.Disable | src/manager/effect_manager.ts:162-171 | every window of global.get_window_actors() at disable time, those created after enable included, loses its stored size and gets on_remove_effect on every manager, in order; then the connections become null |
| EffectManager.Tracker.OnWindowCreated | src/manager/effect_manager.ts:62-80 | a window without a WM class gets a notify::wm-class wait and nothing else; any other has every field changed exactly as _add_effect changes it |
| EffectManager.Tracker.OnActorSize | src/manager/effect_manager.ts:194-202 | the managers are told of a size change only when the size differs from the stored one |
| EffectManager.Tracker.FocusSignal | src/manager/effect_manager.ts:216-232 | on_focus_changed runs on every manager |
| EffectManager.Tracker.OnTextureSize | src/manager/effect_manager.ts:189-191 | on_size_changed runs on every manager, unfiltered |
| EffectManager.Tracker.Resize | src/manager/effect_manager.ts:196 | the shell changes an actor's size |
| EffectManager.Tracker.SettingsChangedSignal | src/manager/effect_manager.ts:45-50 | on_settings_changed with the key runs on every manager |
| EffectManager.Tracker.MinimizeSignal | src/manager/effect_manager.ts:103-109 | on_minimize runs on every manager |
| EffectManager.Tracker.OnUnminimizeSignal | src/manager/effect_manager.ts:112-140 | with the magic-lamp effect on_unminimize runs once, on the first frame past 98%, or never; without it at once |
| EffectManager.Tracker.SwitchWorkspaceSignal | src/manager/effect_manager.ts:82-100 | each manager with on_switch_workspace gets every window of the target workspace, in order; the others are skipped |
| EffectManager.Tracker.OnRestackedSignal | src/manager/effect_manager.ts:151-158 | on_restacked runs on every manager for each visible window of global.get_window_actors() at that moment, in stacking order |
| EffectManager.Tracker.SetFirstChild | src/manager/effect_manager.ts:242 | the shell gives the actor its first child |
| EffectManager.Tracker.SetWmClass | src/manager/effect_manager.ts:71 | the shell gives the window its WM class |
| EffectManager.Tracker.FireOneShot | src/manager/effect_manager.ts:72-75 | a fired first-child wait makes its window ready (lines 247-250), a WM-class wait adds the effect, a surface-size wait (lines 208-212) runs on_size_changed; every field ends as that callback leaves it and the fired wait alone is removed |
| EffectManager.WindowCalls | src/manager/effect_manager.ts:92-96 | one on_switch_workspace call per window |
| EffectManager.WindowCallsAppend | src/manager/effect_manager.ts:92-96 | the windows are visited in order |
| EffectManager.SwitchCallsAppend | src/manager/effect_manager.ts:86-97 | the managers are visited in order |
| EffectManager.SwitchSkipsManagersWithoutHandler | src/manager/effect_manager.ts:89-91 | every switch-workspace call goes to a listed manager with on_switch_workspace and names a window of the workspace |
| EffectManager.WindowCallsMember | src/manager/effect_manager.ts:92-96 | every call of a manager's window loop is its own and names one of the windows |
| EffectManager.RestackCallsAppend | src/manager/effect_manager.ts:152-157 | the windows are visited in stacking order |
| EffectManager.EnableCallsAppend | src/manager/effect_manager.ts:57-59 | the current windows are visited in order |
| EffectManager.EnableCallsOnReadyWindows | src/manager/effect_manager.ts:57-59 | every call enable runs is the add triple of the new manager on a ready current window |
| EffectManager.RemoveCallsAppend | src/manager/effect_manager.ts:164-166 | the current windows are removed in order |
| EffectManager.ForgetExactly | src/manager/effect_manager.ts:256 | after disable no current window has a stored size and every other stored size is kept |
| EffectManager.Tracker.DisableStep | src/manager/effect_manager.ts:163-165 | one turn of disable's loop removes the next window's effect: its stored size goes and its on_remove_effect calls are added at the end |
| EffectManager.Tracker.EnableStep | src/manager/effect_manager.ts:57-59 | one turn of enable's loop runs _add_effect on the next window and extends every field by that window's share |
| EffectManager.SurfaceWait | src/manager/effect_manager.ts:205-213 | at most one wait, on the surface's notify::size, from shell 43.1 on |
| EffectManager.AddEffectWaits | src/manager/effect_manager.ts:178-253 | _add_effect leaves at most one wait: for a missing first child, or for the surface's first resize once attached |
| EffectManager.EnableConnectionsExactly | src/manager/effect_manager.ts:57-59 | a connection made by enable's loop belongs to a ready current window, and a ready window gets all four of its own |
| EffectManager.EnableWaitsNumbered | src/manager/effect_manager.ts:57-59 | the waits enable's loop leaves are numbered consecutively from the old counter and each is for a current window |
| EffectManager.ZeroSizesExactly | src/manager/effect_manager.ts:193 | after enable exactly the ready current windows have a zero stored size, and every other stored size is kept |
| EffectManager.RemoveBeforeAppended | src/manager/effect_manager.ts:72-75 | removing a fired wait after a callback appended waits is removing it first, then appending |
| WorkspaceSwitch.CloneIsDisplacedShadow | src/patch/workspace_switch.ts:59-66 | the shadow clone's box is the window frame outset by 80 times the scale, moved by the clone's offset from the actor |
| WorkspaceSwitch.CloneCentredOnWindow | src/patch/workspace_switch.ts:59-66 | the shadow clone is centred on the window frame as the clone shows it |
| WorkspaceSwitch.ShadowTranslationZ | src/patch/workspace_switch.ts:69-71 | the shadow clone sits 0.05 behind its clone in z |
| WorkspaceSwitch.ClonesForExactly | src/patch/workspace_switch.ts:43-83 | a clone gets a shadow clone exactly when one of its records has a shadow and an enabled effect |
| WorkspaceSwitch.ClonesStep | src/patch/workspace_switch.ts:43-83 | one more record adds its shadow clone exactly when it has a shadow and an enabled effect |
| WorkspaceSwitch.AllClonesStep | src/patch/workspace_switch.ts:17-86 | one more workspace group adds its shadow clones over those of the groups before it |
| WorkspaceSwitch.ForgetExactly | src/patch/workspace_switch.ts:97-100 | the group's clones lose their shadow clone; every other clone keeps its own |
| WorkspaceSwitch.AllForgetExactly | src/patch/workspace_switch.ts:95-102 | after the switch no clone of any workspace group keeps a shadow clone; clones outside the groups keep theirs |
| WorkspaceSwitch.RemovalIdempotent | src/patch/workspace_switch.ts:92-103 | removing the shadow clones twice is removing them once |
| WorkspaceSwitch.DestroyLogExactly | src/patch/workspace_switch.ts:98 | exactly the group's clones that had a shadow clone have it destroyed |
| WorkspaceSwitch.DestroyLogDistinct | src/patch/workspace_switch.ts:98-99 | no shadow clone is destroyed twice, even for a clone listed twice |
| WorkspaceSwitch.StackedBelowExactly | src/patch/workspace_switch.ts:30-35 | on a restack exactly the group's clones with a shadow clone get it placed below them |
| WorkspaceSwitch.Upto | src/patch/workspace_switch.ts:20-27 | one restacked subscription per workspace group, groups in order |
| WorkspaceSwitch.DropAllExactly | src/patch/workspace_switch.ts:38-41 | a destroyed group's subscription goes and every other stays |
| WorkspaceSwitch.Switcher.constructor | src/patch/workspace_switch.ts:11 | no clone has a shadow clone and no subscription exists at first |
| WorkspaceSwitch.Switcher.AddShadows | src/patch/workspace_switch.ts:17-86 | every group gets its subscription, and its qualifying clones get their shadow clone boxes and translation-z handlers |
| WorkspaceSwitch.Switcher.AddShadowsInGroup | src/patch/workspace_switch.ts:22-83 | one group's subscription, then one shadow clone per qualifying record |
| WorkspaceSwitch.Switcher.RemoveShadows | src/patch/workspace_switch.ts:92-103 | every group's shadow clones are destroyed in order and the property deleted |
| WorkspaceSwitch.Switcher.RemoveShadowsInGroup | src/patch/workspace_switch.ts:97-100 | one group's records, each clone's shadow clone destroyed if present and deleted |
| WorkspaceSwitch.Switcher.OnRestacked | src/patch/workspace_switch.ts:29-36 | the clones of the subscription's group whose shadow clone exists, in record order |
| WorkspaceSwitch.Switcher.OnWorkspaceDestroyed | src/patch/workspace_switch.ts:38-41 | the group's restacked subscription is released |
| WorkspaceSwitch.Switcher.OnCloneTranslationZ | src/patch/workspace_switch.ts:69-71 | a watched clone's shadow clone follows its translation-z |
| WorkspaceSwitch.Switcher.OnCloneDestroyed | src/patch/workspace_switch.ts:72-75 | a destroyed clone's translation-z handler is released |
| WorkspaceSwitch.Forget | src/patch/workspace_switch.ts:97-100 | deleting shadow clones only removes entries and changes none that stays |
| WorkspaceSwitch.DestroyLog | src/patch/workspace_switch.ts:98 | at most one destroy per record |
| OverviewShadow.AttachedDialogsSkipped | src/patch/add_shadow_in_overview.ts:29-37 | a call stack through _updateAttachedDialogs or addDialog skips the preview |
| OverviewShadow.IndexOf | src/patch/add_shadow_in_overview.ts:63 | the position of the first occurrence of the sibling |
| OverviewShadow.CloneDirectlyBelowContainer | src/patch/add_shadow_in_overview.ts:63 | the shadow clone sits directly below the window container, and every other child keeps its order |
| OverviewShadow.ShadowAllocation | src/patch/add_shadow_in_overview.ts:107-142 | no allocation exactly when the preview has no meta window |
| OverviewShadow.AllocationCentredOnWindow | src/patch/add_shadow_in_overview.ts:125-138 | the shadow box has the same padding on every side of the window box, so it stays centred on it |
| OverviewShadow.FullSizePreviewHasDesktopPadding | src/patch/add_shadow_in_overview.ts:125-131 | a preview at the window's own width gets the desktop padding, 80 times the window scale |
| OverviewShadow.PaddingScalesWithPreview | src/patch/add_shadow_in_overview.ts:125-131 | the padding shrinks in proportion to the preview |
| OverviewShadow.Preview.constructor | src/patch/add_shadow_in_overview.ts:22 | a preview without the clone, the filter or the destroy handler |
| OverviewShadow.Preview.AddShadowInOverview | src/patch/add_shadow_in_overview.ts:22-73 | a clone is added exactly when the stack guard passes, shouldEnableEffect says yes and the window has a shadow: linear filter on the first child, scale-x and scale-y bound, clone directly below the container, destroy connected; otherwise nothing but the app-type cache changes |
| OverviewShadow.Preview.OnDestroy | src/patch/add_shadow_in_overview.ts:66-72 | the clone is destroyed, the first child's effects cleared and the handler disconnected, once |
| OverviewShadow.RemoveFirst | src/patch/add_shadow_in_overview.ts:67 | destroying a child removes one copy of it, and a missing child changes nothing |
| OverviewShadow.RemoveAfterPrefix | src/patch/add_shadow_in_overview.ts:67 | the first copy is the one removed |
| OverviewShadow.RemoveUndoesInsert | src/patch/add_shadow_in_overview.ts:63-67 | adding the clone and destroying it gives the preview its children back |
| OverviewShadow.StackAllows | src/patch/add_shadow_in_overview.ts:29-37 | a preview passes the guard exactly when its call stack is known and runs through none of the attached-dialog functions |
| OverviewShadow.InsertBelow | src/patch/add_shadow_in_overview.ts:63 | inserting below a sibling adds exactly one copy of the clone and keeps every other child |
| Extension.StartEvents | src/extension.ts:82-85 | the effects always start, and the background menu item is added exactly when the preference entry is on |
| Extension.Extension.constructor | src/extension.ts:36-43 | the shell's own methods in the three slots, nothing saved, no picker and no startup connection |
| Extension.Extension.Enable | src/extension.ts:45-297 | the three slots are saved and patched; while the shell starts up the effects wait for a startup-complete connection, otherwise they start at once; the settings are bound, the picker is exported, and one more closing handler and one more settings-changed handler are connected on every enable, the ones earlier enables left included |
| Extension.Extension.ConnectHandlers | src/extension.ts:281-294 | every enable adds one closing and one settings-changed handler to those already live, and the settings binding is set |
| Extension.Extension.OnStartupComplete | src/extension.ts:66-80 | a live startup handler starts the effects and disconnects itself, leaving the stored id set |
| Extension.Extension.Disable | src/extension.ts:299-324 | the saved methods are back in their slots; the menu item goes, the picker is unexported, the effects stop, a set startup connection is disconnected and cleared, then the settings are released; the closing and settings-changed handlers stay connected |
| Extension.Extension.EnableThenDisable | src/extension.ts:45-324 | enable followed by disable leaves the three prototype slots as they were and no startup connection behind |
| Extension.Extension.OnClosing | src/extension.ts:281-285 | every live closing handler runs in turn, so after n enables closing runs disable n times; afterwards no closing handler is left and the slots hold the saved originals |
| Extension.Extension.OnSettingsChanged | src/extension.ts:288-294 | every live settings-changed handler runs in turn: for the preference-entry key each adds or removes the background menu item as the new value says, or, once disable has released the settings, each throws in getPref (src/utils/settings.ts:70-72, 81); other keys do nothing |
| Extension.SettingsReaction | src/extension.ts:288-294 | one handler logs nothing exactly for keys other than the preference entry, throws exactly when the settings are released, and adds the menu item exactly when the settings are bound and the entry is on |
| Extension.Extension.DisableIntended | src/extension.ts:298-324 | what disable does, and besides that no closing or settings-changed handler is left connected |
| Extension.Extension.AsWrittenCycleClosesTwice | src/extension.ts:281-324 | from no handlers, enable, disable, a preference-entry change, enable and closing log the change's throw and then disable twice |
| Extension.Extension.IntendedCycleClosesOnce | src/extension.ts:281-324 | with the intended disable the same steps log no throw and disable once |
| Extension.Extension.PatchedAddWindow | src/extension.ts:98-159 | the saved original runs first; a clone is added exactly when the stack guard passes, the window has a shadow and shouldEnableEffect says yes, and shouldEnableEffect is asked only for a window with a shadow |
| Extension.Extension.PatchedPrepareWorkspaceSwitch | src/extension.ts:163-259 | the saved original runs first, then every workspace group gets its subscription and its shadow clones |
| Extension.Extension.PatchedFinishWorkspaceSwitch | src/extension.ts:261-274 | every shadow clone is destroyed and deleted first, then the saved original runs |

## Left out

- File I/O: `readFile` and `readRelativeFile` (src/utils/file.ts:12-33) and the `/proc/<pid>/maps` read are not modelled. The shader text and the maps contents are inputs.
- ShaderFile.ReadShader: a shader without a `main()` line gives `None`. At that point the source calls `.trim()` on `undefined` and throws.
- Number formatting: JavaScript's number-to-string conversion in the CSS template is a parameter of the renderer, not modelled.
- GSettings and GLib.Variant internals, `getPref`, `bindPref` and `recursiveUnpack` are not modelled. The store is a map from key to value, and the current and default settings are parameters.
- "border-color": it is not a schema key, but the migration resets it. The model treats that reset as removing the user value for that name.
- Translations (`_()`), toast dialogs, `pop_subpage`, and the dialogs behind `selectAll`, `askForReset` and `ask_for_reset` are not modelled. The response string is an input.
- Page construction is not modelled: `#buildUi`, `_build_ui`, the row loops of the page constructors, `addWindow` and `#updateBlacklistPageTitle`. These only build widgets.
- Custom rows keep their old handlers after a rename, and `checkState` is not modelled.
- The `instanceof` tests of the menu code are taken to hold for the extension's own items. Other menu items are a separate constructor.
- The window picker service, its DBus export and the picking itself are not modelled. A picked class is an argument; the export is a flag.
- Scene-graph work is not modelled: painting, the GLSL shaders, the linear-filter and clip-shadow effects, property bindings (pivot, translation, scale, visibility) and BindConstraint. The model keeps only fields such as shadow visibility, effect enabled, constraint offsets, child order and the shadow-clone boxes.
- `unwrapActor` (the first child in X11 sessions) is not modelled; the effect is attached to the window actor.
- Timers and the event loop are not modelled. The magic-lamp timeline's progress is an input sequence of frames, and a pending unminimize timeout is a number.
- Workspace-switch monitors are not kept apart: the workspace groups of every monitor form one list, in order.
- Floating point: IEEE rounding and NaN propagation are not modelled, except for the undefined read in the rounded-corners clamp.
- The `new Error().stack` lookup is an optional input string.
- The Gio experimental-features lookup for the scale is modelled as a flag of the display.
- RoundedCornersEffect.IntendedUniforms: requires a non-zero scale, actor size, border radius and base exponent. The source divides by each, and IEEE arithmetic would give Infinity or NaN there.
- EventHandlers.Handlers.RefreshRoundedCorners has the same requirement, through `WellFormedEnv`, as do the other handler methods that reach the uniforms.
- RoundedCornersEffect.UniformsAsWritten: requires the same non-zero scale, actor size, radius and exponent. The corner-radius control allows 0 (src/preferences/widgets/custom_settings_row.ts:30). With a zero radius the source computes `0 / 0` (src/effect/rounded_corners_effect.ts:110) and passes a NaN bordered-area radius, which the model does not produce.
- RoundedCornersEffect.Effect.UpdateUniforms: the same requirement, through UniformsAsWritten, so the zero-radius write of NaN is not modelled.
- RoundedCornersEffect.Effect.UpdateUniformsIntended: the same requirement, through IntendedUniforms.
- EventHandlers.Handlers.actors: the handlers' window list is fixed when the handlers are built, as are the windows, display and settings. Windows created later are not added to it, so onRestacked and the refresh loops walk the list given at construction.
- OverviewShadow.ShadowAllocation requires a non-zero frame width, which the source divides by.
- CustomPage.Page.ChangeWindow requires the old class to be '' or to have an override. Given any other old class, the source stores `undefined` under the new class, and its later bind throws.
- CustomPage.Page.OnApply has the same requirement as ChangeWindow.
- Shadow mode: on X11 the handlers force Mutter's own shadow off when the effect is added and set it back to automatic when it is removed (src/manager/event_handlers.ts:53-54, src/manager/event_handlers.ts:88-89). The actor's shadow mode is not modelled.
- Two storage generations: the handlers keep a window's shadow and timeout under `__rwcRoundedWindowInfo` (src/manager/event_handlers.ts:73), while the extension's enable code (src/extension.ts:127), the workspace-switch patch (src/patch/workspace_switch.ts:47) and the overview patch (src/patch/add_shadow_in_overview.ts:43) read `rwcCustomData`. The model does not connect the two: the records those patches read are inputs, not the handlers' state.
- Extension.Extension.OnSettingsChanged: a handler that throws is logged as one GetPrefThrew event and the next handler still runs, as signal emission goes on past an exception; the exception's text is not modelled.
- Three more name mismatches between source generations are connected as intended. The handlers' own updateShadowActorStyle (src/manager/event_handlers.ts:302-345) calls `types.box_shadow_css(shadow, scale)` (src/manager/event_handlers.ts:338), but the types module exports only types and the function is `boxShadowCss` (src/utils/box_shadow.ts:16). Read literally, every shadow restyle throws a TypeError once the padding is set. EventHandlers.StyleFor models that function by ManagerUtils.UpdateShadowActorStyle (src/manager/utils.ts:188-230) with its boxShadowCss. The handlers call `effect.update_uniforms(...)` (src/manager/event_handlers.ts:421), but the effect defines `updateUniforms` (src/effect/rounded_corners_effect.ts:64). The handlers, the managers and the older ui helpers import `settings` from the settings module (src/manager/event_handlers.ts:22, src/manager/event_manager.ts:8, src/manager/effect_manager.ts:11, src/utils/ui.ts:19), which exports no `settings` (src/utils/settings.ts:37-109). Read literally, the import fails to link and the call throws. The model reads the preferences record in place of `settings()`, and EventHandlers.Handlers.PushGeometry and EventHandlers.UniformsCallBorder take the call to reach `updateUniforms`.
- Settings.CornerSettingsRoundTrip: `GLib.Variant.new_uint32` and the `a{su}` padding dictionary (src/utils/settings.ts:158, src/utils/settings.ts:163) truncate a fractional radius or padding to a whole number. The model's `VU32` keeps the exact real, so the round trip holds for every value, where the source's holds only for whole numbers.
- Settings.PackRoundedCornerSettings: the same truncation is not modelled.
- RoundedCornersEffect.MaxRadius: the limit is the full smaller side of the bounds, not half of it. The code has no halving (src/effect/rounded_corners_effect.ts:102-105); the correction only moves its indices from 3 and 4 to 2 and 3 (RoundedCornersEffect.CorrectedIndicesGiveSmallerSide).
- The reset page of `preferences/pages/reset.ts` and the older one of `preferences/widgets/reset_page.ts` are both modelled. Neither is registered among the preference pages, which list only General, Blacklist and Custom.

## Findings

| source | as written | input that shows it | evidently intended | confidence | as-written member | corrected member |
|---|---|---|---|---|---|---|
| src/effect/rounded_corners_effect.ts:102-105 | the radius limit is `Math.min(bounds[3] - bounds[0], bounds[4] - bounds[1])` on a four-entry array; `bounds[4]` is undefined, the limit is NaN and `radius > maxRadius` is always false, so the clamp never fires | a 40 x 40 window with border radius 12 and smoothing 1: exponent 12, clip radius 72, larger than the window | the limit is the smaller side, `Math.min(bounds[2] - bounds[0], bounds[3] - bounds[1])`, with no halving since the code has none, and the clip radius never exceeds it | not executed | RoundedCornersEffect.AsWrittenRadiusExceedsWindow | RoundedCornersEffect.IntendedUniforms |
| src/preferences/pages/blacklist.ts:86-90 | `#deleteWindow` looks up `row.title`, which is the placeholder "Expand this row, to pick a window" (src/preferences/widgets/app_row.ts:54), while the class is in the subtitle (src/preferences/pages/blacklist.ts:78); `indexOf` gives -1 and `splice(-1, 1)` drops the last class | deleting the row for "a" from ["a", "b"] leaves ["a"] | look up `row.subtitle`, removing exactly that class | not executed | BlacklistPage.AsWrittenKeepsDeletedClass | BlacklistPage.DeleteRemovesRowClass |
| src/extension.ts:281-294, 298-324 | every `enable()` connects a new 'closing' handler and a new settings 'changed' handler, and `disable()` disconnects neither; they pile up across disable and enable cycles (a screen lock runs one), and a settings change after disable runs getPref on the released binding | from a fresh start: enable, disable, a change of enable-preferences-entry, enable, then shell closing: the change throws in getPref and closing runs disable twice | disable disconnects both handlers, so closing runs it once and no handler reads the released settings | not executed | Extension.Extension.AsWrittenCycleClosesTwice | Extension.Extension.DisableIntended |
