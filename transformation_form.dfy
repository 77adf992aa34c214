/** The editing session of the transformation form: its five pieces of state,
    the form values, the events that move them, and the guards the render
    derives from them. The spread-built updates and the saved record are
    pure functions; the handlers are methods of `Session`. */
module TransformationForm {
  import opened Records
  import TransformedImage

  // ---------------------------------------------------------------------
  // Pending edits from a settled prompt / colour input

  /** The slot an input writes: `prompt` for the prompt field, `to` for any
      other field name. */
  function Slot(fieldName: string): (slot: string)
  {
    if fieldName == "prompt" then "prompt" else "to"
  }

  /** `{...p}` for the pending state: null spreads into no keys. */
  function Spread(p: Option<Transformations>): (r: Transformations)
  {
    if p.Some? then p.value else map[]
  }

  /** `{...p?.[kind]}`: an object spreads into its fields; a missing kind, a
      boolean or a number spreads into no keys. */
  function KindFields(p: Option<Transformations>, kind: string): (r: map<string, Value>)
  {
    if kind in Spread(p) && Spread(p)[kind].Object? then Spread(p)[kind].fields else map[]
  }

  /** The pending state after an input for `kind` settles with `value`:
      one slot under `kind` is set, every other slot and kind is kept. */
  function SettleEdit(p: Option<Transformations>, fieldName: string, value: string, kind: string): (r: Transformations)
    ensures kind in r && r[kind].Object?
    ensures r[kind].fields.Keys == KindFields(p, kind).Keys + {Slot(fieldName)}
    ensures r[kind].fields[Slot(fieldName)] == Text(value)
    ensures forall s :: s in KindFields(p, kind) && s != Slot(fieldName) ==>
              r[kind].fields[s] == KindFields(p, kind)[s]
    ensures r.Keys == Spread(p).Keys + {kind}
    ensures forall k :: k in Spread(p) && k != kind ==> r[k] == Spread(p)[k]
  {
    Spread(p)[kind := Object(KindFields(p, kind)[Slot(fieldName) := Text(value)])]
  }

  /** One settled input: the field name, the value and the kind it was
      typed for. */
  datatype Edit = Edit(fieldName: string, value: string, kind: string)

  /** The pending state after the inputs in `edits` settle, in order. */
  function SettleAll(p: Option<Transformations>, edits: seq<Edit>): (r: Option<Transformations>)
  {
    if edits == [] then p
    else
      var e := edits[|edits| - 1];
      Some(SettleEdit(SettleAll(p, edits[..|edits| - 1]), e.fieldName, e.value, e.kind))
  }

  /** The value of the last edit in `edits` that writes `slot` under `kind`. */
  function LastWrite(edits: seq<Edit>, kind: string, slot: string): (v: Option<string>)
  {
    if edits == [] then None
    else
      var e := edits[|edits| - 1];
      if e.kind == kind && Slot(e.fieldName) == slot then Some(e.value)
      else LastWrite(edits[..|edits| - 1], kind, slot)
  }

  /** After any run of settled inputs, every slot that was written holds the
      value of the last write to it, and a slot nobody wrote keeps what it
      held before. */
  lemma {:induction false} SettleAllSlot(p: Option<Transformations>, edits: seq<Edit>, kind: string, slot: string)
    requires edits != [] && exists i :: 0 <= i < |edits| && edits[i].kind == kind
    ensures var r := Spread(SettleAll(p, edits));
            kind in r && r[kind].Object? &&
            (LastWrite(edits, kind, slot).Some? ==>
               slot in r[kind].fields && r[kind].fields[slot] == Text(LastWrite(edits, kind, slot).value)) &&
            (LastWrite(edits, kind, slot).None? ==>
               (slot in r[kind].fields <==> slot in KindFields(p, kind)) &&
               (slot in KindFields(p, kind) ==> r[kind].fields[slot] == KindFields(p, kind)[slot]))
  {
    var n := |edits|;
    var e, front := edits[n - 1], edits[..n - 1];
    if e.kind != kind || Slot(e.fieldName) != slot {
      if e.kind == kind {
        if front != [] && exists i :: 0 <= i < |front| && front[i].kind == kind {
          SettleAllSlot(p, front, kind, slot);
        } else {
          SettleAllUntouched(p, front, kind);
          assert LastWrite(edits, kind, slot) == LastWrite(front, kind, slot);
        }
      } else {
        var i :| 0 <= i < n && edits[i].kind == kind;
        assert i < n - 1 && front[i] == edits[i];
        SettleAllSlot(p, front, kind, slot);
      }
    }
  }

  /** A kind no settled input was typed for is left as it was. */
  lemma {:induction false} SettleAllUntouched(p: Option<Transformations>, edits: seq<Edit>, kind: string)
    requires forall i :: 0 <= i < |edits| ==> edits[i].kind != kind
    ensures kind in Spread(SettleAll(p, edits)) <==> kind in Spread(p)
    ensures kind in Spread(p) ==> Spread(SettleAll(p, edits))[kind] == Spread(p)[kind]
    ensures KindFields(SettleAll(p, edits), kind) == KindFields(p, kind)
    ensures forall slot :: LastWrite(edits, kind, slot).None?
  {
    if edits != [] {
      SettleAllUntouched(p, edits[..|edits| - 1], kind);
    }
  }

  /** Inputs for different slots may settle in either order. */
  lemma SettleCommutes(p: Option<Transformations>, a: Edit, b: Edit)
    requires a.kind != b.kind || Slot(a.fieldName) != Slot(b.fieldName)
    ensures SettleAll(p, [a, b]) == SettleAll(p, [b, a])
  {
    SettleTwice(p, a, b);
    SettleTwice(p, b, a);
    if a.kind == b.kind {
      CommuteSlots(p, a, b);
    } else {
      CommuteKinds(p, a, b);
    }
  }

  /** Inputs for two different kinds commute. */
  lemma CommuteKinds(p: Option<Transformations>, a: Edit, b: Edit)
    requires a.kind != b.kind
    ensures SettleEdit(Some(SettleEdit(p, a.fieldName, a.value, a.kind)), b.fieldName, b.value, b.kind)
         == SettleEdit(Some(SettleEdit(p, b.fieldName, b.value, b.kind)), a.fieldName, a.value, a.kind)
  {
  }

  /** Inputs for two different slots of one kind commute. */
  lemma CommuteSlots(p: Option<Transformations>, a: Edit, b: Edit)
    requires a.kind == b.kind && Slot(a.fieldName) != Slot(b.fieldName)
    ensures SettleEdit(Some(SettleEdit(p, a.fieldName, a.value, a.kind)), b.fieldName, b.value, b.kind)
         == SettleEdit(Some(SettleEdit(p, b.fieldName, b.value, b.kind)), a.fieldName, a.value, a.kind)
  {
    var f := KindFields(p, a.kind);
    var sa, sb := Slot(a.fieldName), Slot(b.fieldName);
    assert f[sa := Text(a.value)][sb := Text(b.value)] == f[sb := Text(b.value)][sa := Text(a.value)];
  }

  /** Two settled inputs, unfolded. */
  lemma SettleTwice(p: Option<Transformations>, a: Edit, b: Edit)
    ensures SettleAll(p, [a, b])
         == Some(SettleEdit(Some(SettleEdit(p, a.fieldName, a.value, a.kind)), b.fieldName, b.value, b.kind))
  {
    assert [a, b][..1] == [a] && [a][..0] == [];
    assert SettleAll(p, [a]) == Some(SettleEdit(p, a.fieldName, a.value, a.kind));
  }

  /** A recolour session: the prompt "car" and the colour "red" settle into
      `{recolor: {prompt: "car", to: "red"}}` from an empty pending state. */
  lemma RecolorScenario()
    ensures SettleAll(None, [Edit("prompt", "car", "recolor"), Edit("color", "red", "recolor")])
         == Some(map["recolor" := Object(map["prompt" := Text("car"), "to" := Text("red")])])
  {
    SettleTwice(None, Edit("prompt", "car", "recolor"), Edit("color", "red", "recolor"));
    var first := SettleEdit(None, "prompt", "car", "recolor");
    assert first == map["recolor" := Object(map["prompt" := Text("car")])];
    var second := SettleEdit(Some(first), "color", "red", "recolor");
    assert second["recolor"].fields == map["prompt" := Text("car"), "to" := Text("red")];
    assert second.Keys == {"recolor"};
    assert second == map["recolor" := Object(map["prompt" := Text("car"), "to" := Text("red")])];
  }

  // ---------------------------------------------------------------------
  // Aspect ratio selection

  /** `{...image, aspectRation, width, height}` for the chosen option: the
      three fields come from the option, every other field is kept (a null
      image spreads into no fields). */
  function Resized(image: Option<ImageRecord>, option: AspectOption): (r: ImageRecord)
    ensures r.width == Some(option.width) && r.height == Some(option.height)
    ensures r.aspectRation == Some(option.aspectRatio)
    ensures r.(width := None, height := None, aspectRation := None)
         == Fields(image).(width := None, height := None, aspectRation := None)
  {
    Fields(image).(aspectRation := Some(option.aspectRatio), width := Some(option.width), height := Some(option.height))
  }

  /** Choosing a size never changes whether the transformed image is shown,
      and the saved `aspectRatio` field is left as it was. */
  lemma ResizeKeepsDisplay(image: Option<ImageRecord>, option: AspectOption, config: Option<Transformations>, flag: bool)
    ensures Resized(image, option).publicId == Fields(image).publicId
    ensures Resized(image, option).aspectRatio == Fields(image).aspectRatio
    ensures TransformedImage.Render(Some(Resized(image, option)), config, flag).Transformed?
         == TransformedImage.Render(image, config, flag).Transformed?
  {
    assert Resized(image, option).(width := None, height := None, aspectRation := None).publicId
        == Fields(image).(width := None, height := None, aspectRation := None).publicId;
  }

  /** Two sizes chosen in a row: the second one wins outright. */
  lemma ResizeLastWins(image: Option<ImageRecord>, a: AspectOption, b: AspectOption)
    ensures Resized(Some(Resized(image, a)), b) == Resized(image, b)
  {
  }

  /** The form's submit guard `data || image` lets a record through once a
      size has been chosen, even with no upload: on the add page the create
      request is sent with no public id. */
  lemma ResizeWithoutUpload(props: Props, lib: Library, option: AspectOption,
                            config: Option<Transformations>, values: FormValues)
    requires props.action == Add && props.data.None?
    ensures var c := SaveRequest(props, lib, Some(Resized(None, option)), config, values);
            c.Some? && c.value.AddImage? && c.value.image.publicId.None?
  {
  }

  // ---------------------------------------------------------------------
  // Credit gate, initial values and the saved record

  /** The insufficient-credit notice: the balance is below the size of the
      fee, whichever sign the fee has. */
  function CreditNotice(creditBalance: int, creditFee: int): (shown: bool)
    ensures shown <==> creditBalance < creditFee || creditBalance < -creditFee
    ensures creditBalance < 0 ==> shown
  {
    creditBalance < (if creditFee < 0 then -creditFee else creditFee)
  }

  /** The fee of one credit charged as -1 (or -5) against balances around it. */
  lemma CreditNoticeExamples()
    ensures !CreditNotice(10, -5) && CreditNotice(3, -5)
    ensures !CreditNotice(1, -1) && CreditNotice(0, -1)
  {
  }

  /** The form's initial values: the saved record's five fields when updating
      an existing record, the defaults otherwise. */
  function InitialValues(props: Props, defaults: FormValues): (r: FormValues)
  {
    if props.data.Some? && props.action == Update then
      var d := props.data.value;
      FormValues(d.title, d.aspectRatio, d.color, d.prompt, d.publicId)
    else defaults
  }

  /** The record `onSubmit` assembles: the image's size, id and URL, the
      committed config, the transformation URL, and the form's values. */
  function BuildRecord(values: FormValues, image: Option<ImageRecord>, config: Option<Transformations>,
                       kind: string, url: string): (r: ImageData)
  {
    var img := Fields(image);
    ImageData(values.title, img.publicId, kind, img.width, img.height, config,
              img.secureUrl, url, values.aspectRatio, values.color, values.prompt)
  }

  /** The form schema: `title` and `publicId` must be strings, the other
      three fields may be missing. */
  predicate PassesSchema(form: FormValues)
  {
    form.title.Some? && form.publicId.Some?
  }

  /** `data || image`: whether `onSubmit` assembles a record at all. */
  predicate BuildsRecord(data: Option<ImageRecord>, image: Option<ImageRecord>)
  {
    data.Some? || image.Some?
  }

  /** The one request `onSubmit` sends, if any. An update without a `data`
      record throws on `data._id` inside the `try`, so it sends nothing. */
  function SaveRequest(props: Props, lib: Library, image: Option<ImageRecord>,
                       config: Option<Transformations>, values: FormValues): (c: Option<Command>)
    ensures c.Some? <==> BuildsRecord(props.data, image) && (props.action == Add || props.data.Some?)
    ensures c.Some? && props.action == Add ==> c.value.AddImage? && c.value.path == "/"
    ensures c.Some? && props.action == Update ==>
              c.value.UpdateImage? && c.value.id == props.data.value.id &&
              c.value.path == RecordPath(props.data.value.id)
    ensures c.Some? ==> c.value.userId == props.userId
    ensures c.Some? && (c.value.AddImage? || c.value.UpdateImage?) ==>
              c.value.image == BuildRecord(values, image, config, props.kind,
                                           lib.ogImageUrl(Fields(image).width, Fields(image).height,
                                                          Fields(image).publicId, config))
    ensures c.Some? && (c.value.AddImage? || c.value.UpdateImage?) ==>
              var r := c.value.image;
              r.transformationURL == lib.ogImageUrl(r.width, r.height, r.publicId, r.config)
  {
    if !BuildsRecord(props.data, image) then None
    else
      var img := Fields(image);
      var record := BuildRecord(values, image, config, props.kind,
                                lib.ogImageUrl(img.width, img.height, img.publicId, config));
      match props.action
      case Add => Some(AddImage(record, props.userId, "/"))
      case Update =>
        if props.data.None? then None
        else Some(UpdateImage(record, props.data.value.id, props.userId, RecordPath(props.data.value.id)))
  }

  /** Saving an update straight from the initial form re-sends the record's
      own title, aspect ratio, colour and prompt, under the record's id. */
  lemma UntouchedUpdateResends(props: Props, lib: Library, image: Option<ImageRecord>, config: Option<Transformations>)
    requires props.action == Update && props.data.Some?
    ensures var c := SaveRequest(props, lib, image, config, InitialValues(props, lib.defaultValues));
            c.Some? && c.value.UpdateImage? && c.value.id == props.data.value.id &&
            c.value.image.title == props.data.value.title &&
            c.value.image.aspectRatio == props.data.value.aspectRatio &&
            c.value.image.color == props.data.value.color &&
            c.value.image.prompt == props.data.value.prompt
  {
  }

  /** The delay each callback is handed to `debounce` with. */
  function DelayOf(d: Deferred): (ms: int)
  {
    match d
    case SettleInput(_, _, _, _) => 1000
    case ClearTransforming(_) => 8000
  }

  // ---------------------------------------------------------------------
  // The session

  /** One open transformation form. The props and the imported helpers are
      fixed; the five state values and the form values change by event.
      `issued` records, in order, what the session asked of the outside
      world (credit debits, saves, navigations, callbacks handed to
      `debounce`). */
  class Session {
    const props: Props
    const lib: Library

    var image: Option<ImageRecord>
    var newTransformation: Option<Transformations>
    var isSubmitting: bool
    var isTransforming: bool
    var transformationConfig: Option<Transformations>
    var form: FormValues
    ghost var issued: seq<Command>

    /** The "Apply Transformation" button is enabled: not disabled by a
        transformation in flight or by an empty pending state. While it is
        enabled the spinner is never shown. */
    predicate ApplyEnabled()
      reads this
      ensures ApplyEnabled() <==> !(isTransforming || newTransformation.None?)
      ensures ApplyEnabled() ==> !TransformedImage.Spinner(View())
    {
      !isTransforming && newTransformation.Some?
    }

    /** The "Save" button is enabled: it is disabled once a submit began. */
    predicate SaveEnabled()
      reads this
    {
      !isSubmitting
    }

    /** The transformed-image panel as the form renders it, from the
        session's image, committed config and transforming flag. */
    function View(): (v: TransformedImage.View)
      reads this
      ensures v.Transformed? <==> TransformedImage.Truthy(Fields(image).publicId) && transformationConfig.Some?
      ensures v.Transformed? ==> v.config == transformationConfig.value && v.spinner == isTransforming
    {
      TransformedImage.Render(image, transformationConfig, isTransforming)
    }

    /** The form mounts: the image is the `data` prop, the config the
        `config` prop, nothing is pending or in flight, and the form holds
        its initial values. */
    constructor (props: Props, lib: Library)
      ensures this.props == props && this.lib == lib
      ensures image == props.data && transformationConfig == props.config
      ensures newTransformation.None? && !isSubmitting && !isTransforming
      ensures form == InitialValues(props, lib.defaultValues)
      ensures issued == []
      ensures !ApplyEnabled() && SaveEnabled()
    {
      this.props := props;
      this.lib := lib;
      image := props.data;
      newTransformation := None;
      isSubmitting := false;
      isTransforming := false;
      transformationConfig := props.config;
      form := InitialValues(props, lib.defaultValues);
      issued := [];
    }

    /** The uploader hands over a new image descriptor through `setImage`;
        it replaces the image wholesale. */
    method SetImage(uploaded: Option<ImageRecord>)
      modifies this
      ensures image == uploaded
      ensures newTransformation == old(newTransformation) && transformationConfig == old(transformationConfig)
      ensures isSubmitting == old(isSubmitting) && isTransforming == old(isTransforming)
      ensures form == old(form) && issued == old(issued)
    {
      image := uploaded;
    }

    /** A form control bound straight to `field.onChange` changes: the
        title input or the uploader's public id. Only the form changes. */
    method EditField(field: FormField, v: string)
      requires field == TitleField || field == PublicIdField
      modifies this
      ensures form == WithField(old(form), field, v)
      ensures image == old(image) && newTransformation == old(newTransformation)
      ensures transformationConfig == old(transformationConfig)
      ensures isSubmitting == old(isSubmitting) && isTransforming == old(isTransforming)
      ensures issued == old(issued)
    {
      form := WithField(form, field, v);
    }

    /** A size preset is chosen: the image takes the preset's size and ratio,
        the kind's default config becomes pending (which enables Apply unless
        a transformation is in flight), and the form records the choice.
        The select exists only on the `fill` page. */
    method SelectAspectRatio(value: string)
      requires props.kind == "fill"
      requires value in lib.aspectRatioOptions
      requires props.kind in lib.kindDefaults
      modifies this
      ensures image == Some(Resized(old(image), lib.aspectRatioOptions[value]))
      ensures newTransformation == Some(lib.kindDefaults[props.kind])
      ensures form == WithField(old(form), AspectRatioField, value)
      ensures transformationConfig == old(transformationConfig)
      ensures isSubmitting == old(isSubmitting) && isTransforming == old(isTransforming)
      ensures issued == old(issued)
      ensures ApplyEnabled() <==> !isTransforming
    {
      var imageSize := lib.aspectRatioOptions[value];
      image := Some(Resized(image, imageSize));
      newTransformation := Some(lib.kindDefaults[props.kind]);
      form := WithField(form, AspectRatioField, value);
    }

    /** A keystroke in the prompt or colour input: the update is handed to
        `debounce` with a 1000 ms delay and nothing else happens now. The
        prompt input exists for `remove` and `recolor` and passes the page's
        kind and its own control; the colour input exists for `recolor` only
        and passes `recolor` and its own control. */
    method InputChange(fieldName: string, value: string, kind: string, target: FormField)
      requires (fieldName == "prompt" && kind == props.kind && target == PromptField &&
                (props.kind == "remove" || props.kind == "recolor")) ||
               (fieldName == "color" && kind == "recolor" && props.kind == "recolor" && target == ColorField)
      modifies this
      ensures issued == old(issued) + [HandToDebounce(SettleInput(fieldName, value, kind, target),
                                                      DelayOf(SettleInput(fieldName, value, kind, target)))]
      ensures image == old(image) && newTransformation == old(newTransformation)
      ensures transformationConfig == old(transformationConfig) && form == old(form)
      ensures isSubmitting == old(isSubmitting) && isTransforming == old(isTransforming)
    {
      var callback := SettleInput(fieldName, value, kind, target);
      issued := issued + [HandToDebounce(callback, DelayOf(callback))];
    }

    /** A callback that was handed to `debounce` runs. A settled input writes
        its slot of the pending edits and its form control; the error
        callback clears the transforming flag when a setter was supplied. */
    method Fire(d: Deferred)
      requires HandToDebounce(d, DelayOf(d)) in issued
      modifies this
      ensures d.SettleInput? ==>
                newTransformation == Some(SettleEdit(old(newTransformation), d.fieldName, d.value, d.kind)) &&
                form == WithField(old(form), d.target, d.value) &&
                isTransforming == old(isTransforming) &&
                (ApplyEnabled() <==> !isTransforming)
      ensures d.ClearTransforming? ==>
                newTransformation == old(newTransformation) && form == old(form) &&
                isTransforming == (old(isTransforming) && !d.hasSetter)
      ensures image == old(image) && transformationConfig == old(transformationConfig)
      ensures isSubmitting == old(isSubmitting) && issued == old(issued)
    {
      match d
      case SettleInput(fieldName, value, kind, target) =>
        newTransformation := Some(SettleEdit(newTransformation, fieldName, value, kind));
        form := WithField(form, target, value);
      case ClearTransforming(hasSetter) =>
        if hasSetter {
          isTransforming := false;
        }
    }

    /** "Apply Transformation": the flag goes up, the pending edits are merged
        (pending first) into the config and cleared, and one credit debit is
        requested. Afterwards Apply is disabled. */
    method Apply()
      modifies this
      ensures isTransforming
      ensures transformationConfig == lib.merge(old(newTransformation), old(transformationConfig))
      ensures newTransformation.None?
      ensures issued == old(issued) + [UpdateCredits(props.userId, lib.creditFee)]
      ensures image == old(image) && isSubmitting == old(isSubmitting) && form == old(form)
      ensures !ApplyEnabled()
      ensures View().Transformed? ==> TransformedImage.Spinner(View())
    {
      isTransforming := true;
      transformationConfig := lib.merge(newTransformation, transformationConfig);
      newTransformation := None;
      issued := issued + [UpdateCredits(props.userId, lib.creditFee)];
    }

    /** The rendered image finished loading: the flag is cleared when a
        setter was supplied, and the spinner goes away. */
    method OnLoad(hasSetter: bool)
      modifies this
      ensures isTransforming == (old(isTransforming) && !hasSetter)
      ensures image == old(image) && newTransformation == old(newTransformation)
      ensures transformationConfig == old(transformationConfig) && form == old(form)
      ensures isSubmitting == old(isSubmitting) && issued == old(issued)
      ensures hasSetter ==> !TransformedImage.Spinner(View())
    {
      if hasSetter {
        isTransforming := false;
      }
    }

    /** The rendered image failed: the clearing callback is handed to
        `debounce` with an 8000 ms delay; the flag is not touched now. */
    method OnError(hasSetter: bool)
      modifies this
      ensures issued == old(issued) + [HandToDebounce(ClearTransforming(hasSetter), DelayOf(ClearTransforming(hasSetter)))]
      ensures isTransforming == old(isTransforming)
      ensures image == old(image) && newTransformation == old(newTransformation)
      ensures transformationConfig == old(transformationConfig) && form == old(form)
      ensures isSubmitting == old(isSubmitting)
    {
      var callback := ClearTransforming(hasSetter);
      issued := issued + [HandToDebounce(callback, DelayOf(callback))];
    }

    /** "Save" with the reply the server gives. A form that fails the schema
        never reaches `onSubmit`, and nothing changes. Otherwise submitting
        goes up and stays up, and the record is built from the session's
        image, committed config and form values. When a request is sent and
        comes back with a record, the session navigates to it; an added
        record also resets the form and puts the `data` image back. A null
        reply or an exception changes nothing else. */
    method Submit(reply: Reply)
      modifies this
      ensures isSubmitting == (old(isSubmitting) || PassesSchema(old(form)))
      ensures PassesSchema(old(form)) ==> !SaveEnabled()
      ensures var req := if PassesSchema(old(form))
                         then SaveRequest(props, lib, old(image), old(transformationConfig), old(form))
                         else None;
              issued == old(issued) +
                (if req.None? then []
                 else [req.value] + (if reply.Saved? then [Navigate(RecordPath(reply.id))] else [])) &&
              (var reset := req.Some? && props.action == Add && reply.Saved?;
               image == (if reset then props.data else old(image)) &&
               form == (if reset then InitialValues(props, lib.defaultValues) else old(form)))
      ensures newTransformation == old(newTransformation) && transformationConfig == old(transformationConfig)
      ensures isTransforming == old(isTransforming)
    {
      if !PassesSchema(form) {
        return;
      }
      var values := form;
      isSubmitting := true;
      if BuildsRecord(props.data, image) {
        var img := Fields(image);
        var transformationUrl := lib.ogImageUrl(img.width, img.height, img.publicId, transformationConfig);
        var imageData := BuildRecord(values, image, transformationConfig, props.kind, transformationUrl);
        if props.action == Add {
          issued := issued + [AddImage(imageData, props.userId, "/")];
          if reply.Saved? {
            form := InitialValues(props, lib.defaultValues);
            image := props.data;
            issued := issued + [Navigate(RecordPath(reply.id))];
          }
        }
        if props.action == Update {
          // Without a `data` record, reading `data._id` throws inside the
          // `try`; the `catch` only logs.
          if props.data.Some? {
            var id := props.data.value.id;
            issued := issued + [UpdateImage(imageData, id, props.userId, RecordPath(id))];
            if reply.Saved? {
              issued := issued + [Navigate(RecordPath(reply.id))];
            }
          }
        }
      }
    }
  }

  /** A recolour session from mount to save: two inputs settle, Apply
      commits them with one debit, the load signal ends the transformation,
      and after an upload and a title the saved record carries the settled
      prompt and colour. */
  method RecolorSession(lib: Library, userId: string)
  {
    var props := Props(Add, None, userId, "recolor", 10, None);
    var session := new Session(props, lib);
    session.InputChange("prompt", "car", "recolor", PromptField);
    session.InputChange("color", "red", "recolor", ColorField);
    session.Fire(SettleInput("prompt", "car", "recolor", PromptField));
    session.Fire(SettleInput("color", "red", "recolor", ColorField));
    SettleTwice(None, Edit("prompt", "car", "recolor"), Edit("color", "red", "recolor"));
    RecolorScenario();
    var pending := map["recolor" := Object(map["prompt" := Text("car"), "to" := Text("red")])];
    assert session.newTransformation == Some(pending);
    assert session.ApplyEnabled();
    session.Apply();
    assert session.transformationConfig == lib.merge(Some(pending), None);
    assert session.newTransformation.None? && !session.ApplyEnabled();
    assert |session.issued| == 3 && session.issued[2] == UpdateCredits(userId, lib.creditFee);
    session.OnLoad(true);
    assert !session.isTransforming && !TransformedImage.Spinner(session.View());
    assert session.form.prompt == Some("car") && session.form.color == Some("red");
    var uploaded := EmptyImage.(publicId := Some("img1"), width := Some(1000), height := Some(1000));
    session.SetImage(Some(uploaded));
    session.EditField(TitleField, "Red car");
    session.EditField(PublicIdField, "img1");
    session.Submit(Saved(Some("42")));
    assert |session.issued| == 5;
    var sent := session.issued[3];
    assert sent.AddImage? && sent.path == "/";
    assert sent.image.prompt == Some("car") && sent.image.color == Some("red");
    assert sent.image.title == Some("Red car") && sent.image.publicId == Some("img1");
    assert sent.image.config == lib.merge(Some(pending), None);
    assert session.issued[4] == Navigate(RecordPath(Some("42")));
    assert session.image.None? && session.form == InitialValues(props, lib.defaultValues);
    assert !session.SaveEnabled();
  }
}
