# Transformation form session — a Dafny model

This project models the client-side editing session of the image
transformation form. The user picks a size preset or types a prompt or a
colour. Those edits collect in a *pending* transformation. "Apply
Transformation" merges the pending edits into the committed config and
requests a credit debit. The transformed-image panel renders the committed
config and clears the *transforming* flag when the image loads. "Save"
assembles an image record and sends it to `addImage` or `updateImage`.

Modules:

- `Records` (`records.dfy`): the value shapes.
  - the image descriptor, the nested transformation configs and the form values;
  - the form's props;
  - the imported helpers and tables, bundled as `Library`. These are
    `deepMergeObjects`, `getCldOgImageUrl`, `aspectRatioOptions`, `creditFee`,
    `defaultValues` and `transformationTypes[k].config`. They are taken as
    given: merge and URL builder as uninterpreted functions, the tables as data;
  - the commands the session issues: credit debits, create and update requests,
    navigations, and callbacks handed to `debounce`.
- `TransformedImage` (`transformed_image.dfy`): the panel's render, a pure
  function of the image, the config and the transforming flag.
- `TransformationForm` (`transformation_form.dfy`): the session.
  - The spread-built updates are pure functions: the pending edit of a settled
    input, the resized image, the initial form values and the assembled record.
  - `Session` is a class. Its fields are the five state values, the form values
    and a ghost log `issued` of commands sent out. It has one method per event.
  - Each method's `ensures` gives the whole new state in terms of the old one:
    what changes, what stays the same, which command is logged and which button
    guard then holds.

Service outcomes are inputs, never computed. A save reply is a `Reply`: a saved
record, `null` or an exception. `debounce` is not modelled. `InputChange` and
`OnError` only log the callback they hand over. A separate `Fire` event runs a
callback that was logged.

Where the code does something other than its names and its UI suggest, the model follows the code:

- Apply calls `merge(pending, committed)`, with the pending edits as the first argument.
- The Apply handler does not check its guard. Only the button's `disabled`
  attribute does, so `Apply` has no precondition.
- Likewise the submit handler does not check `isSubmitting`. Only the Save
  button's `disabled` attribute does (line 295), and a disabled default button
  blocks both the click and an implicit submission by Enter. So `Submit` has no
  precondition and a second `Submit` is allowed by the model while `isSubmitting`
  is up; a client of the model that follows the page calls it only when
  `SaveEnabled()` holds.
- `isSubmitting` is set to true and never set back to false.
- Save builds a record whenever `data || image`. Choosing a size with no upload
  makes `image` non-null without a public id. On the add page a create request
  with no public id is then sent (`ResizeWithoutUpload`), provided two things.
  The form must pass the schema, which with no upload needs
  `defaultValues.publicId` to be a string. The URL builder `getCldOgImageUrl`
  must return for a missing `src`; the model takes it to return for any
  arguments.
- The size handler writes the key `aspectRation`. The saved `aspectRatio` field is left as it was.
- The form value of a prompt or colour input is written only when the debounced
  callback runs, not at the keystroke.
- An update with no `data` record throws on `data._id` inside the `try`. The
  exception is caught, so nothing is sent. An update whose `data` has no `_id`
  sends `_id: undefined`, while its path prints `undefined`.

## Model

| member | source | states |
|---|---|---|
| `Records.WithField` | components/shared/TransformationForm.tsx:151-165 | the form control handed to a handler reads back the new value; every other control keeps its value |
| `Records.RecordPath` | components/shared/TransformationForm.tsx:109 | the navigation path is `/transformations/` followed by the record id, with a missing id printed as `undefined` |
| `Records.RecordPathInjective` | components/shared/TransformationForm.tsx:124-128 | two record paths are equal exactly when the two ids print the same |
| `TransformedImage.AltText` | components/shared/TransformedImage.tsx:33 | the alt text is the title when it is non-empty, otherwise `Transformed image`; it is never empty |
| `TransformedImage.Render` | components/shared/TransformedImage.tsx:27-56 | a shown image's source is the image's own public id, and neither the source nor the alt text is ever empty; when it is shown and when the spinner is on are stated by `SpinnerIff`, `FlagOnlyMovesSpinner` and `Session.View` |
| `TransformedImage.SpinnerIff` | components/shared/TransformedImage.tsx:41 | the spinner is on iff the transformed branch is active and `isTransforming` holds; with the flag down it is never on |
| `TransformedImage.FlagOnlyMovesSpinner` | components/shared/TransformedImage.tsx:27-51 | the flag changes only the spinner: placeholder or image, source, alt and config do not depend on it |
| `TransformationForm.SettleEdit` | components/shared/TransformationForm.tsx:157-163 | after a settle, the kind's entry is an object whose chosen slot is the value; its other slots and every other kind are kept; a null pending state or a missing or non-object kind counts as empty |
| `TransformationForm.SettleAllSlot` | components/shared/TransformationForm.tsx:155-163 | after any run of settled inputs, each written slot holds the last value written to it, and an unwritten slot keeps its value from before |
| `TransformationForm.SettleAllUntouched` | components/shared/TransformationForm.tsx:157-159 | a kind that no settled input targets is left exactly as it was |
| `TransformationForm.SettleCommutes` | components/shared/TransformationForm.tsx:155-167 | two inputs that write different slots give the same pending state in either order |
| `TransformationForm.RecolorScenario` | components/shared/TransformationForm.tsx:157-163 | prompt `car` then colour `red`, starting from null, give `{recolor: {prompt: car, to: red}}` |
| `TransformationForm.Resized` | components/shared/TransformationForm.tsx:140-147 | the resized image takes width, height and `aspectRation` from the option; every other field is kept; a null image becomes an object with only those three fields |
| `TransformationForm.ResizeKeepsDisplay` | components/shared/TransformationForm.tsx:142-147 | choosing a size keeps the public id and the saved `aspectRatio`, so it never changes whether the transformed image is shown |
| `TransformationForm.ResizeLastWins` | components/shared/TransformationForm.tsx:142-147 | of two sizes chosen in a row, the second wins outright |
| `TransformationForm.ResizeWithoutUpload` | components/shared/TransformationForm.tsx:76-104 | on the add page with no `data`, after choosing a size with no upload, the request `onSubmit` builds once it is called is a create request whose record has no public id. At the session level `Submit` gets that far only if the form passes the schema, which with no upload needs `defaultValues.publicId` to be a string |
| `TransformationForm.CreditNotice` | components/shared/TransformationForm.tsx:186 | the notice is shown iff the balance is below the fee or below its negation, i.e. below the fee's absolute value; a negative balance always shows it |
| `TransformationForm.CreditNoticeExamples` | components/shared/TransformationForm.tsx:186 | with a fee of -5, no notice at balance 10 and a notice at balance 3; with a fee of -1, no notice at 1 and a notice at 0 |
| `TransformationForm.SaveRequest` | components/shared/TransformationForm.tsx:76-133 | a request is sent iff `data` or `image` is present and the action is Add or `data` is present. An Add creates at path `/`. An Update sends `data`'s `_id` as it is (possibly missing) and path `/transformations/<id>`. Both carry the user id and the assembled record: title, aspect ratio, colour and prompt from the form values, public id, size and secure URL from the image (absent for a null image), the committed config, and a transformation URL built from the record's own width, height, public id and config |
| `TransformationForm.UntouchedUpdateResends` | components/shared/TransformationForm.tsx:57-125 | saving an update from the untouched initial form sends the record's own title, aspect ratio, colour and prompt, under the record's id |
| `TransformationForm.Session.ApplyEnabled` | components/shared/TransformationForm.tsx:287 | Apply is enabled iff it is not disabled by `isTransforming` or by a null pending state; while it is enabled the spinner is never shown |
| `TransformationForm.Session.View` | components/shared/TransformationForm.tsx:274-281 | the panel the form renders shows the image iff the session's image has a non-empty public id and a config is committed; it shows that config, and its spinner follows `isTransforming` |
| `TransformationForm.Session.constructor` | components/shared/TransformationForm.tsx:45-69 | at mount, image is `data` and the config is the `config` prop; nothing is pending, both flags are down, the form holds the initial values and nothing is issued; Apply is disabled and Save is enabled |
| `TransformationForm.Session.SetImage` | components/shared/TransformationForm.tsx:267 | the uploader's `setImage` replaces the image wholesale and changes nothing else |
| `TransformationForm.Session.EditField` | components/shared/TransformationForm.tsx:192-266 | the title input or the uploader's `field.onChange` sets that form value; nothing else changes |
| `TransformationForm.Session.SelectAspectRatio` | components/shared/TransformationForm.tsx:137-153 | only on the `fill` page, where the select is rendered (line 194): the image is resized from the chosen option; the pending edits become the kind's default config; the form records the choice; the config, both flags and the log are unchanged; Apply is then enabled iff no transformation is in flight |
| `TransformationForm.Session.InputChange` | components/shared/TransformationForm.tsx:155-167 | a keystroke only logs its settle callback, handed to `debounce` with the delay `DelayOf` gives it (1000 ms); no state changes. Only the two pairings the inputs pass are accepted: `prompt` with the page's kind and the prompt control (pages `remove` and `recolor`), and `color` with `recolor` and the colour control (lines 216, 229-233, 238, 248-252) |
| `TransformationForm.Session.Fire` | components/shared/TransformationForm.tsx:156-165 | a logged settle callback sets its slot of the pending edits and its form control, leaving Apply enabled iff no transformation is in flight; the logged error callback of components/shared/TransformedImage.tsx:38 clears the flag when a setter was supplied; nothing else changes |
| `TransformationForm.Session.Apply` | components/shared/TransformationForm.tsx:170-181 | the flag goes up and the config becomes `merge(old pending, old config)`; pending becomes null and exactly one `updateCredits(userId, creditFee)` is logged; image, form and `isSubmitting` are unchanged; Apply is then disabled (button guard at line 287) and the spinner shows whenever the image does |
| `TransformationForm.Session.OnLoad` | components/shared/TransformedImage.tsx:37 | the load signal clears the flag when a setter is supplied, which removes the spinner; nothing else changes |
| `TransformationForm.Session.OnError` | components/shared/TransformedImage.tsx:38 | the error signal does not touch the flag; it only logs the clearing callback, handed to `debounce` with the delay `DelayOf` gives it (8000 ms) |
| `TransformationForm.Session.Submit` | components/shared/TransformationForm.tsx:72-135 | a form that fails the schema changes nothing. Otherwise `isSubmitting` goes up, so Save is disabled (button guard at line 295). The request of `SaveRequest`, built from the session's image, committed config and form values, is logged, followed by a navigation to `/transformations/<id>` only for a saved reply. A saved Add also resets the form to its initial values and restores the image to `data`. A null reply, an exception or no request changes nothing else. Pending edits, config and `isTransforming` are untouched |

Several helpers are plain definitions of a source expression and carry no
contract of their own; the members above state what they mean:

- `Slot` (line 161, `prompt` or `to`), `Spread` (`{...prevState}`, line 158,
  null spreading into nothing), `KindFields` (`{...prevState?.[type]}`, line
  160) and `Records.Fields` (`image?.field` on a null image): see `SettleEdit`,
  `SettleAllSlot` and `Resized`.
- `BuildsRecord` (the `data || image` guard, line 76) and `BuildRecord` (the
  object literal, lines 84-96): see `SaveRequest` and `ResizeWithoutUpload`.
- `PassesSchema` (title and public id required, lines 36-42) and
  `Session.SaveEnabled` (line 295): see `Submit` and the constructor.
- `InitialValues` (lines 57-63): see `UntouchedUpdateResends` and the constructor.

No method ever sets `isSubmitting` back to false: each ensures either
`isSubmitting == old(isSubmitting)` or, for `Submit`,
`isSubmitting == (old(isSubmitting) || PassesSchema(old(form)))`.
`RecolorSession` is a client of `Session` that walks one recolour session from
mount to the save. It shows what these contracts let a caller conclude: the
saved record carries the settled prompt and colour.

## Left out

- Markup and layout: the JSX, styling, labels, the select, input and button components, and the download button of the image panel.
- Form validation: the schema is modelled only as `PassesSchema` (which fields must be present). The per-field error messages are not modelled.
- react-hook-form internals: a form is a value of its five fields, and `form.reset()` sets it to the initial values.
- `MediaUploader` is not part of this model. Only its `setImage` callback (`SetImage`) and its `onValueChange` for the public id (`EditField`) are modelled.
- `deepMergeObjects` is an uninterpreted function of `Library`. No precedence or accumulation of the merge is claimed.
- `debounce`: the model does not say whether a handed-over callback ever runs, or whether later calls cancel it. `Fire` runs any callback that was handed over, any number of times and in any order.
- `getCldOgImageUrl` is assumed to return for any arguments. Its code is not part of this model. A throw at line 77, which is outside both `try` blocks, would reject `onSubmit` after `isSubmitting` went up and send nothing; that path is not modelled, so `Submit` always logs the request `SaveRequest` gives.
- `getCldOgImageUrl` is an uninterpreted function of width, height, public id and config. The `CldImage` rendering, `getImageSize`, `dataUrl` and the `type` prop of the panel are left out.
- `addImage`, `updateImage`, `updateCredits` and `router.push` are network I/O. They appear as logged commands, and their outcomes are `Reply` parameters. The result of `updateCredits` is never read by the source.
- Timing and interleaving: `useTransition`, other events interleaving while an `await` is pending, and the 1000 ms and 8000 ms timers. `Submit` is one atomic step taken with its reply.
- `console.log` in the two `catch` blocks.
- `KindFields`: spreading a string stored directly under a kind yields index keys in JavaScript, but is modelled as no keys. The configs this form builds never hold such a string.
- `SelectAspectRatio` requires the page's kind to be `fill`, since the select is rendered only there (components/shared/TransformationForm.tsx:194). It requires the chosen key to be in the option table, since the select offers only the table's keys (components/shared/TransformationForm.tsx:205). It also requires the form's kind to be in the types table, since the page passes a standard type (app/(root)/transformations/add/[type]/page.tsx:11-28). Either lookup failing would throw.
- Numbers are unbounded integers: widths, heights, balances and fees never overflow in the model.
