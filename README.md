# Streetmix UI decision logic in Dafny

This project models four small pieces of Streetmix's front end and proves properties of them:

- **The toast container** (`Toasts`, from `assets/scripts/ui/Toasts.jsx`). It is a queue of transient notifications. A module-level counter hands out keys. Each published payload is appended to `items` as `{ key, ...payload }`. A transition then animates the toast in two enter steps: size, then fade-in. When the enter transition comes to rest, `onRest` filters the toast out of `items`, and that starts its leave transition. The leave first records a cancel handle, then runs three steps in order: a `life` value is animated to `0%` over the display timeout, which amounts to a delay because `life` is never displayed, the toast fades and slides away, and finally its height and margin collapse. The close button calls the cancel handle, but only once the leave has recorded one. The model is a class `ToastContainer`. Its fields are the counter `nextId`, the list `items`, a phase per live transition (`phase`) and the set of keys with a recorded cancel handle (`cancelRegistered`). Its methods are `Publish`, `OnRest`, `Advance` (the current animation step finishes) and `Close`. The functions `Next`, `Trace`, `StepConfigOf` and `Run` describe the step order, the timing of each step and the style targets.
- **The resize guides** (`ResizeGuides`, from `assets/scripts/segments/ResizeGuides.jsx`). During a segment resize, this decides whether a min guide and a max guide are drawn, and at what width. It also covers the guide style, when the component re-renders, and the mapping from store state to props.
- **The street-width menu** (`StreetMetaWidth`, from `assets/scripts/streets/StreetMetaWidthContainer.jsx`). It covers the editing flag, set by a label click and cleared by any menu choice. It also covers the dispatch of a menu choice, written as the list of effects it performs: a change of units, a prompt followed by an optional width update, nothing, or a direct width update. `Number.parseInt(value, 10)` is modelled as ECMAScript defines it, and the model proves that it reads back any decimal integer string.
- **The info-bubble warnings** (`Warnings`, from `assets/scripts/info_bubble/Warnings.jsx`). It maps three warning flags to an ordered list of message ids, or to nothing.

Helpers whose code lives elsewhere are parameters. These are `getSegmentVariantInfo`, `normalizeStreetWidth`, `processWidthInput` and `prettifyWidth`. So are the constants whose defining files are not part of this model: `TILE_SIZE`, `MIN_SEGMENT_WIDTH`, the special menu values `STREET_WIDTH_*` and the warning indices `SEGMENT_WARNING_*`. The answer of `window.prompt` is an input of type `Option<string>`.

In these places the code behaves differently from what one might expect, and the model follows the code:
- The code never rejects a payload without `message`. A `PropTypes` declaration is the only check (`Toasts.jsx:115`).
- Cancelling does not jump from entering into the leave sequence. The cancel handle exists only once the leave has begun (`Toasts.jsx:44`). Closing before that does nothing (`Toasts.jsx:72`).
- A toast is removed from `items` when its enter transition rests, not when its leave ends (`Toasts.jsx:59`). The second `onRest`, at the end of the leave, finds nothing to remove.
- A payload that carries its own `key` overrides the counter (`Toasts.jsx:63`). Keys are unique and increasing only while no payload does this.

## Model

| member | source | states |
|---|---|---|
| Toasts.MakeRecord | assets/scripts/ui/Toasts.jsx:63 | The record's key is the counter unless the payload carries a key, which then wins. Every payload field is copied. |
| Toasts.ToastContainer.constructor | assets/scripts/ui/Toasts.jsx:9-20 | `config` defaults to tension 488, friction 36, precision 0.01, and `timeout` defaults to 12000. The counter starts at 0 and the list, transitions and cancel handles start empty. |
| Toasts.ToastContainer.Publish | assets/scripts/ui/Toasts.jsx:63 | The new record is appended at the tail and everything before it is unchanged. It takes the old counter value as key; that value was never handed out before. The counter goes up by one. The record's transition starts at the size step with no cancel handle. For a key-less payload, keys stay strictly increasing and below the counter. |
| Toasts.ToastContainer.OnRest | assets/scripts/ui/Toasts.jsx:59 | `items` becomes the list without the rested key. The container invariant and the key order are preserved. |
| Toasts.ToastContainer.Advance | assets/scripts/ui/Toasts.jsx:30-59 | The transition moves to the next phase, or ends after the collapse step. The item leaves `items` exactly when its enter rests. The cancel handle is recorded exactly when the leave begins and dropped when the transition ends. The final `onRest` leaves `items` unchanged. Nothing else changes. |
| Toasts.ToastContainer.Close | assets/scripts/ui/Toasts.jsx:70-73 | A cancel handle is recorded exactly when the transition is leaving. If there is one, the transition ends. Otherwise, for example during enter, nothing changes. `items` and the counter are never touched. |
| Toasts.Next | assets/scripts/ui/Toasts.jsx:30-58 | Each phase's successor comes one position later, and only the collapse step ends a transition. |
| Toasts.Lifecycle | assets/scripts/ui/Toasts.jsx:30-59 | A new transition goes through size, fade-in, rest, the timed `life` step, fade-out and collapse, in that order. |
| Toasts.StepTiming | assets/scripts/ui/Toasts.jsx:60 | The `life` step lasts exactly `timeout`. Every other animated step, enter or leave, uses the spring config. |
| Toasts.EnterEndsShown | assets/scripts/ui/Toasts.jsx:23-41 | Starting from the initial style, enter ends at the measured width and height, at opacity 1 and at translateX(0px). |
| Toasts.LeaveEndsCollapsed | assets/scripts/ui/Toasts.jsx:43-58 | From any style, the three leave steps end with life 0%, opacity 0, translateX(300px), height 0 and marginTop 0px. |
| Toasts.WithoutKey | assets/scripts/ui/Toasts.jsx:59 | The result holds exactly the items whose key differs from the removed key. It is no longer than the input, and it equals the input when the key is absent. |
| Toasts.WithoutKeyConcat | assets/scripts/ui/Toasts.jsx:59 | Removal distributes over concatenation, so the kept items keep their relative order. |
| Toasts.WithoutMiddle | assets/scripts/ui/Toasts.jsx:59 | Removing an item whose neighbours have other keys leaves exactly the neighbours, in order. |
| Toasts.WithoutKeyIdempotent | assets/scripts/ui/Toasts.jsx:59 | Removing the same key twice is the same as removing it once. |
| Toasts.AppendKeepsOrder | assets/scripts/ui/Toasts.jsx:63 | Appending a record keyed with the counter keeps keys strictly increasing below the next counter value. |
| Toasts.WithoutKeyKeepsOrder | assets/scripts/ui/Toasts.jsx:59 | Removal keeps keys strictly increasing and below the counter. |
| Toasts.IncreasingKeysDistinct | assets/scripts/ui/Toasts.jsx:7 | Strictly increasing keys are pairwise distinct. |
| Toasts.ClassNames | assets/scripts/ui/Toasts.jsx:89-92 | The class list starts with `toast`. It has a second entry, `toast-<type>`, exactly when `type` is a non-empty string. |
| Toasts.ClassName | assets/scripts/ui/Toasts.jsx:89-95 | The class attribute is `toast toast-<type>` for a set type, and `toast` otherwise. |
| ResizeGuides.SelectGuides | assets/scripts/segments/ResizeGuides.jsx:70 | Nothing is rendered exactly when `isResizing` is false or there is no segment. |
| ResizeGuides.MinGuideIff | assets/scripts/segments/ResizeGuides.jsx:78-80 | A min guide is drawn exactly when the variant's `minWidth` is truthy, and at that width. |
| ResizeGuides.MaxGuideChoice | assets/scripts/segments/ResizeGuides.jsx:87-96 | The max guide is at `remainingWidth + segment.width` when the test passes. Otherwise it is at the variant's `maxWidth` if that is truthy. There is no max guide exactly when neither holds. |
| ResizeGuides.MaxGuideWithinMaxWidth | assets/scripts/segments/ResizeGuides.jsx:88-96 | With a truthy `maxWidth` a max guide is always drawn, and never wider than `maxWidth`. |
| ResizeGuides.RemainingGuideAboveMinimum | assets/scripts/segments/ResizeGuides.jsx:88-90 | A max guide at the remaining width is nonzero and at least `minWidth`. With no `minWidth` it is at least `MIN_SEGMENT_WIDTH`. |
| ResizeGuides.GetStyle | assets/scripts/segments/ResizeGuides.jsx:34-41 | The pixel width is `width * TILE_SIZE`, and the left margin is minus half of it, so the guide is centred. |
| ResizeGuides.UpdateOnlyOnToggle | assets/scripts/segments/ResizeGuides.jsx:30-32 | With a segment present, the component re-renders exactly when the guides' visibility flips. Props that agree on `isResizing` never cause a re-render. |
| ResizeGuides.NoUpdateWhileResizingUnchanged | assets/scripts/segments/ResizeGuides.jsx:30-32 | For all props, with or without a segment, props that agree on `isResizing` never cause a re-render. |
| ResizeGuides.SegmentAt | assets/scripts/segments/ResizeGuides.jsx:116 | A number indexes a segment only when it is a whole number in range. Any other number gives `null`. |
| ResizeGuides.MapStateToProps | assets/scripts/segments/ResizeGuides.jsx:112-119 | A non-number active segment maps to `null`, and its segment to `null` too. A number is kept, and its segment is looked up. The drag state and the remaining width pass through. |
| ResizeGuides.GuidesNeedActiveSegment | assets/scripts/segments/ResizeGuides.jsx:112-119 | Guides are rendered from store state exactly during a drag whose active segment is a number that indexes an existing segment. |
| StreetMetaWidth.ParseInt | assets/scripts/streets/StreetMetaWidthContainer.jsx:45 | The result is NaN exactly when no digit follows the leading white space and the optional sign. |
| StreetMetaWidth.ParseIntDecimal | assets/scripts/streets/StreetMetaWidthContainer.jsx:45 | `parseInt` reads back the decimal spelling of every integer, whatever non-digit text follows it. |
| StreetMetaWidth.ParseIntNaN | assets/scripts/streets/StreetMetaWidthContainer.jsx:45 | A value with no digit after its white space and sign parses to NaN. |
| StreetMetaWidth.UnitSwitch | assets/scripts/streets/StreetMetaWidthContainer.jsx:47-53 | Switch-to-metric calls `updateUnits(metric)`, and switch-to-imperial calls `updateUnits(imperial)`. Neither updates the width. |
| StreetMetaWidth.CustomWidth | assets/scripts/streets/StreetMetaWidthContainer.jsx:55-72 | The custom entry first prompts, suggesting the normalised occupied width. It updates the width only when the answer is a non-empty string, and then to `normalizeStreetWidth(processWidthInput(answer))`. |
| StreetMetaWidth.PlainSelection | assets/scripts/streets/StreetMetaWidthContainer.jsx:73-81 | Any other entry updates the width exactly when it is nonzero and not the current width, and then to that entry. |
| StreetMetaWidth.NotANumber | assets/scripts/streets/StreetMetaWidthContainer.jsx:45-82 | An entry that parses to NaN does nothing. |
| StreetMetaWidth.StreetMetaWidthContainer.constructor | assets/scripts/streets/StreetMetaWidthContainer.jsx:23 | Editing starts off. |
| StreetMetaWidth.StreetMetaWidthContainer.View | assets/scripts/streets/StreetMetaWidthContainer.jsx:85-103 | The menu shows exactly while editing. Otherwise the label shows, with the `editable` prop. |
| StreetMetaWidth.StreetMetaWidthContainer.HandleClickLabel | assets/scripts/streets/StreetMetaWidthContainer.jsx:30-34 | A click starts editing when the width is editable. Otherwise the state is unchanged. |
| StreetMetaWidth.StreetMetaWidthContainer.HandleChangeMenuSelection | assets/scripts/streets/StreetMetaWidthContainer.jsx:41-83 | Every choice ends editing. The effects are those of the parsed entry, with the cases tried in the switch's order. |
| StreetMetaWidth.Editable | assets/scripts/streets/StreetMetaWidthContainer.jsx:123 | A read-only street is never editable, and neither is one with the feature flag off. Otherwise the width is editable. |
| StreetMetaWidth.EditableProp | assets/scripts/streets/StreetMetaWidthContainer.jsx:116-118 | `editable` defaults to `true` when not supplied. |
| Warnings.Render | assets/scripts/info_bubble/Warnings.jsx:19-41 | The messages equal the catalogue filtered by the flags. The result is null exactly when no flag is set. Otherwise there are one to three messages. Each id is present exactly when its flag is set, and they appear in the order does-not-fit, not-wide, too-wide. |
| Warnings.Shown | assets/scripts/info_bubble/Warnings.jsx:22-30 | Every message shown comes from an entry whose flag is set, and there are no more messages than entries. |
| Warnings.CatalogueShown | assets/scripts/info_bubble/Warnings.jsx:20-30 | Filtering the ordered catalogue gives exactly the list that the three successive pushes build. |
| Warnings.IdsDistinct | assets/scripts/info_bubble/Warnings.jsx:23-29 | The three message ids are different. |
| Warnings.ShownDistinct | assets/scripts/info_bubble/Warnings.jsx:35 | No id is shown twice, so the paragraph keys are distinct. |
| Warnings.DefaultRendersNothing | assets/scripts/info_bubble/Warnings.jsx:15-17 | With the default `warnings = []`, nothing is rendered. |

## Left out

- Spring physics: the tension, friction and precision values are carried as data only. Each animation step is one discrete event, with no interpolation.
- DOM measurement: the enter size targets are the symbolic `ContentWidth` and `ContentHeight`, and `setRef` / `refMap` are not modelled. A toast whose content never renders, which would stall in its size step, is not represented.
- `WeakMap` object identity: `cancelMap` is keyed by the toast's `key`. When several payloads supply the same key, the model lets them share one entry, where the code would keep one entry per object.
- The shared module-level counter: `id` is shared by every container in the page. The model has one container, which owns the counter and starts it at 0.
- The effect of `cancel()`: it belongs to the animation library. The model takes it to end the leave transition at once.
- The on-screen order of leaving transitions, which the animation library keeps: only the order of `items` is modelled.
- `handleAction`, the title and action rendering, `event.stopPropagation()`, JSX and CSS beyond the class-name rule are not modelled.
- The registration of the publish callback through `setMessages`: the container's constructor stands for it. Re-registration when `setMessages` changes is not modelled.
- The wall-clock countdown: it appears only as the duration of the `life` step.
- The `life` value is animated but never displayed: `Toast` takes it out of the style before rendering (`Toasts.jsx:87`, `Toasts.jsx:95`). The model keeps it in the animated style only.
- `null` props: a `None` where a default is applied means a prop not supplied (`undefined`). A `null` `config` or `timeout` would be passed on as is, a `null` `editable` is falsy, and a `null` `warnings` throws in `render`. None of these is represented.
- A non-boolean `EDIT_STREET_WIDTH.value`: `Editable` takes the flag as a boolean. With an `undefined` flag value, `!readOnly && value` is `undefined` on an editable street, and `defaultProps` then turns that into `true`. The model does not represent this case.
- Payload fields with an explicit `undefined` value: these are treated as absent. Payload keys that are not integers are not represented.
- The centre-line computation of the resize guides (`getSegmentEl`, offsets in pixels) and the guide markup are not modelled.
- Number-to-string formatting: `GetStyle` returns the numbers behind the `…px` strings.
- NaN widths in the resize guides and an undefined `remainingWidth` are not represented: widths are reals.
- Strings used as array indices for `activeSegment` are not represented. Every non-number counts as "not a number", which indexes nothing.
- The prompt's message text (`intl.formatMessage` with the prettified minimum and maximum custom widths) is not modelled. The browser prompt itself is an input.
- `parseInt` of very long digit strings: the model gives the exact integer, where JavaScript rounds to a double.
- `street.width` is a real number compared with the parsed integer.
- The label and menu components, the `FormattedMessage` default texts and intl are not modelled.
- `assets/scripts/app/SkyBackground.jsx` is not part of this model. It is presentational: CSS classes, parallax transforms and a gradient builder from another package.
