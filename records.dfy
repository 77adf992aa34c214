/** Shapes of the values the transformation form works on: the image
    descriptor, the nested transformation configs, the form values, the
    component's props, the helpers and tables it imports, and the requests it
    issues to the server. */
module Records {

  /** `null` / `undefined` versus a present value. */
  datatype Option<+T> = None | Some(value: T)

  /** A value inside a transformation config: the configs hold strings,
      booleans (`fillBackground: true`), numbers and nested objects. */
  datatype Value = Text(s: string) | Flag(b: bool) | Number(n: int) | Object(fields: map<string, Value>)

  /** A `Transformations` object: transformation kind -> its parameters,
      e.g. "recolor" -> {prompt: "car", to: "red"}. */
  type Transformations = map<string, Value>

  /** The image descriptor (the `image` state and the `data` prop). Each field
      is absent when the object does not carry it. `aspectRation` is the key
      that the aspect-ratio handler writes; `aspectRatio` is the saved one. */
  datatype ImageRecord = ImageRecord(
    id: Option<string>,
    title: Option<string>,
    publicId: Option<string>,
    width: Option<int>,
    height: Option<int>,
    secureUrl: Option<string>,
    aspectRatio: Option<string>,
    color: Option<string>,
    prompt: Option<string>,
    aspectRation: Option<string>)

  /** The object with no fields at all: what `{...null}` spreads into. */
  const EmptyImage := ImageRecord(None, None, None, None, None, None, None, None, None, None)

  /** `image?.field` reads: a null image reads as the empty object. */
  function Fields(image: Option<ImageRecord>): (r: ImageRecord)
  {
    if image.Some? then image.value else EmptyImage
  }

  /** The form schema: title, aspectRatio, color, prompt, publicId. */
  datatype FormValues = FormValues(
    title: Option<string>,
    aspectRatio: Option<string>,
    color: Option<string>,
    prompt: Option<string>,
    publicId: Option<string>)

  /** The form controls whose `field.onChange` a handler can be given. */
  datatype FormField = TitleField | AspectRatioField | ColorField | PromptField | PublicIdField

  /** `field.onChange(v)`: one form value is set, the others are kept. */
  function WithField(form: FormValues, field: FormField, v: string): (r: FormValues)
    ensures Read(r, field) == Some(v)
    ensures forall g :: g != field ==> Read(r, g) == Read(form, g)
  {
    match field
    case TitleField => form.(title := Some(v))
    case AspectRatioField => form.(aspectRatio := Some(v))
    case ColorField => form.(color := Some(v))
    case PromptField => form.(prompt := Some(v))
    case PublicIdField => form.(publicId := Some(v))
  }

  /** The value a form control shows. */
  function Read(form: FormValues, field: FormField): (v: Option<string>)
  {
    match field
    case TitleField => form.title
    case AspectRatioField => form.aspectRatio
    case ColorField => form.color
    case PromptField => form.prompt
    case PublicIdField => form.publicId
  }

  /** One entry of the aspect-ratio option table. */
  datatype AspectOption = AspectOption(aspectRatio: string, labelText: string, width: int, height: int)

  datatype Action = Add | Update

  /** The props of the form component. */
  datatype Props = Props(
    action: Action,
    data: Option<ImageRecord>,
    userId: string,
    kind: string,
    creditBalance: int,
    config: Option<Transformations>)

  /** The helpers and constant tables the form imports but whose code is not
      part of this model: they are taken as given.
      - `aspectRatioOptions`: the size presets;
      - `creditFee`: the fee charged per applied transformation;
      - `defaultValues`: the empty form;
      - `kindDefaults[k]`: `transformationTypes[k].config`;
      - `merge`: `deepMergeObjects`, uninterpreted;
      - `ogImageUrl(width, height, publicId, config)`: `getCldOgImageUrl`. */
  datatype Library = Library(
    aspectRatioOptions: map<string, AspectOption>,
    creditFee: int,
    defaultValues: FormValues,
    kindDefaults: map<string, Transformations>,
    merge: (Option<Transformations>, Option<Transformations>) -> Option<Transformations>,
    ogImageUrl: (Option<int>, Option<int>, Option<string>, Option<Transformations>) -> string)

  /** The record sent to `addImage` / `updateImage`. */
  datatype ImageData = ImageData(
    title: Option<string>,
    publicId: Option<string>,
    transformationType: string,
    width: Option<int>,
    height: Option<int>,
    config: Option<Transformations>,
    secureURL: Option<string>,
    transformationURL: string,
    aspectRatio: Option<string>,
    color: Option<string>,
    prompt: Option<string>)

  /** A callback handed to `debounce`. */
  datatype Deferred =
    | SettleInput(fieldName: string, value: string, kind: string, target: FormField)
    | ClearTransforming(hasSetter: bool)

  /** What the session asks of the outside world. */
  datatype Command =
    | UpdateCredits(userId: string, fee: int)
    | AddImage(image: ImageData, userId: string, path: string)
    | UpdateImage(image: ImageData, id: Option<string>, userId: string, path: string)
    | Navigate(path: string)
    | HandToDebounce(callback: Deferred, delayMs: int)

  /** How an `addImage` / `updateImage` call came back: a record (with its
      `_id`, if it has one), `null`, or an exception. */
  datatype Reply = Saved(id: Option<string>) | NoRecord | Threw

  /** A value in a template literal: `undefined` prints as "undefined". */
  function Interpolate(s: Option<string>): (text: string)
  {
    if s.Some? then s.value else "undefined"
  }

  const RecordPrefix := "/transformations/"

  /** `/transformations/${id}`. */
  function RecordPath(id: Option<string>): (p: string)
    ensures |p| == |RecordPrefix| + |Interpolate(id)|
    ensures p[..|RecordPrefix|] == RecordPrefix && p[|RecordPrefix|..] == Interpolate(id)
  {
    RecordPrefix + Interpolate(id)
  }

  /** Two records' paths are equal exactly when their ids print the same. */
  lemma RecordPathInjective(a: Option<string>, b: Option<string>)
    ensures RecordPath(a) == RecordPath(b) <==> Interpolate(a) == Interpolate(b)
  {
  }
}
