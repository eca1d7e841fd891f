/**
 The recursive schema interpreter for messages, and the conformance relation it decides: an
 interpreter that walks a specification and reports the first thing wrong, against an order-free
 description of what the specification asks of a value.
 */
module Protocol {
  import opened Options
  import opened Text

  datatype Number = Finite(r: real) | Infinite(positive: bool) | NotANumber

  datatype Value =
    | Text(s: string)
    | Bool(b: bool)
    | Int(i: int)
    | Float(f: Number)
    | List(items: seq<Value>)
    | Object(fields: map<string, Value>)
    | Null

  datatype FieldSpec =
    | StringSpec(
        minLength: Option<nat>, maxLength: Option<nat>, names: Option<seq<string>>, pattern: Option<string -> bool>,
        forbidControls: bool, allowNewlineTab: bool, forbidFormat: bool, notBlank: bool)
    | BoolSpec(equals: Option<bool>)
    | IntSpec(values: Option<seq<int>>, minimum: Option<int>, maximum: Option<int>)
    | NumberSpec(finite: bool)
    | ListSpec(
        minItems: Option<nat>, maxItems: Option<nat>, exact: Option<seq<Value>>, unique: bool,
        items: Option<FieldSpec>)
    | ObjectSpec(
        required: seq<FieldDef>, optional: seq<FieldDef>, exactKeys: bool,
        ascending: seq<Pair>, variants: Option<Variants>)

  datatype FieldDef = FieldDef(name: string, spec: FieldSpec)

  datatype Pair = Pair(lower: string, upper: string)

  /** Further field specifications, chosen by the value of one string field. */
  datatype Variants = Variants(field: string, cases: seq<CaseDef>)

  datatype CaseDef = CaseDef(name: string, fields: seq<FieldDef>)

  datatype Error =
    | InvalidType(field: string) | InvalidValue(field: string) | TooShort(field: string) | TooLong(field: string)
    | ArrayTooLong(field: string) | MissingField(field: string) | UnknownField(field: string) | UnknownMessage

  /** The platform's character classes: Unicode category Cf, and whitespace. */
  datatype Classes = Classes(isFormat: char -> bool, isSpace: char -> bool)

  predicate IsControl(c: char) {
    (c as int) < 32 || (c as int) == 127
  }

  predicate IsForbidden(c: char, allowNewlineTab: bool) {
    IsControl(c) && !(allowNewlineTab && (c == '\n' || c == '\t'))
  }

  /** Where line feeds and tabs are allowed, every other control is still forbidden. */
  lemma OnlyTwoAreExempt(c: char)
    ensures IsForbidden(c, false) <==> c < ' ' || c as int == 127
    ensures IsForbidden(c, true) <==> IsForbidden(c, false) && c != '\n' && c != '\t'
  {
  }

  predicate IsBlank(classes: Classes, s: string) {
    Strip(classes.isSpace, s) == ""
  }

  function Names(specs: seq<FieldDef>): set<string> {
    set k | 0 <= k < |specs| :: specs[k].name
  }

  predicate GreaterNumber(a: Number, b: Number) {
    match (a, b)
    case (Finite(x), Finite(y)) => x > y
    case (Infinite(p), Finite(_)) => p
    case (Finite(_), Infinite(q)) => !q
    case (Infinite(p), Infinite(q)) => p && !q
    case _ => false
  }

  /** A truth value counts as the number zero or one. */
  function AsNumber(value: Value): Option<Number> {
    match value
    case Int(i) => Some(Finite(i as real))
    case Bool(b) => Some(Finite(if b then 1.0 else 0.0))
    case Float(f) => Some(f)
    case _ => None
  }

  /** Numbers are compared by size and texts by their first difference; other values are not compared. */
  predicate IsGreater(a: Value, b: Value) {
    || (a.Text? && b.Text? && !AtMost(a.s, b.s))
    || (AsNumber(a).Some? && AsNumber(b).Some? && GreaterNumber(AsNumber(a).value, AsNumber(b).value))
  }

  /** Both fields are present, and the one that should be lower is the greater. */
  predicate IsOutOfOrder(fields: map<string, Value>, pair: Pair) {
    pair.lower in fields && pair.upper in fields && IsGreater(fields[pair.lower], fields[pair.upper])
  }

  /** Numbers and truth values are the same when they count as the same number. */
  predicate IsSame(a: Value, b: Value) {
    a == b || (AsNumber(a).Some? && AsNumber(a) == AsNumber(b))
  }

  predicate AreSame(a: seq<Value>, b: seq<Value>) {
    |a| == |b| && forall i | 0 <= i < |a| :: IsSame(a[i], b[i])
  }

  predicate HasRepeats(items: seq<Value>) {
    exists i, j :: 0 <= i < j < |items| && IsSame(items[i], items[j])
  }

  /** True counts as one and false as zero, and nothing else is the same as a text, a list or an object. */
  lemma SameAs(a: Value, b: Value)
    ensures IsSame(a, b) <==> IsSame(b, a)
    ensures a.Text? || a.List? || a.Object? || a.Null? ==> (IsSame(a, b) <==> a == b)
    ensures IsSame(Bool(true), b) <==> b in {Bool(true), Int(1), Float(Finite(1.0))}
    ensures IsSame(Bool(false), b) <==> b in {Bool(false), Int(0), Float(Finite(0.0))}
  {
  }

  /** Numbers are in a strict order from minus infinity to infinity; what is not a number is not in it. */
  lemma GreaterIsOrder(a: Number, b: Number, c: Number)
    ensures !GreaterNumber(a, a)
    ensures GreaterNumber(a, b) && GreaterNumber(b, c) ==> GreaterNumber(a, c)
    ensures a != b && !a.NotANumber? && !b.NotANumber? ==> GreaterNumber(a, b) || GreaterNumber(b, a)
    ensures a.NotANumber? ==> !GreaterNumber(a, b) && !GreaterNumber(b, a)
    ensures a.Finite? ==> GreaterNumber(Infinite(true), a) && GreaterNumber(Finite(a.r + 1.0), a)
  {
  }

  /** Lists and dictionaries cannot be put into a set. */
  predicate IsHashable(value: Value) {
    !value.List? && !value.Object?
  }

  // ---------- The interpreter ----------

  function ValidateString(classes: Classes, field: string, s: string, spec: FieldSpec): Option<Error>
    requires spec.StringSpec?
  {
    if spec.minLength.Some? && |s| < spec.minLength.value then Some(TooShort(field))
    else if spec.maxLength.Some? && |s| > spec.maxLength.value then Some(TooLong(field))
    else if spec.names.Some? && s !in spec.names.value then Some(InvalidValue(field))
    else if spec.pattern.Some? && !spec.pattern.value(s) then Some(InvalidValue(field))
    else if spec.forbidControls && exists i :: 0 <= i < |s| && IsForbidden(s[i], spec.allowNewlineTab)
      then Some(InvalidValue(field))
    else if spec.forbidFormat && exists i :: 0 <= i < |s| && classes.isFormat(s[i]) then Some(InvalidValue(field))
    else if spec.notBlank && IsBlank(classes, s) then Some(InvalidValue(field))
    else None
  }

  function ValidateField(classes: Classes, field: string, value: Value, spec: FieldSpec): Option<Error>
    decreases spec, 2, 0
  {
    match spec
    case StringSpec(_, _, _, _, _, _, _, _) =>
      if !value.Text? then Some(InvalidType(field)) else ValidateString(classes, field, value.s, spec)
    case BoolSpec(equals) =>
      if !value.Bool? then Some(InvalidType(field))
      else if equals.Some? && value.b != equals.value then Some(InvalidValue(field))
      else None
    case IntSpec(values, minimum, maximum) =>
      if !value.Int? then Some(InvalidType(field))
      else if values.Some? && value.i !in values.value then Some(InvalidValue(field))
      else if minimum.Some? && value.i < minimum.value then Some(InvalidValue(field))
      else if maximum.Some? && value.i > maximum.value then Some(InvalidValue(field))
      else None
    case NumberSpec(finite) =>
      if !value.Int? && !value.Float? then Some(InvalidType(field))
      else if finite && value.Float? && !value.f.Finite? then Some(InvalidValue(field))
      else None
    case ListSpec(minItems, maxItems, exact, unique, items) =>
      if !value.List? then Some(InvalidType(field))
      else if minItems.Some? && |value.items| < minItems.value then Some(InvalidValue(field))
      else if maxItems.Some? && |value.items| > maxItems.value then Some(ArrayTooLong(field))
      else if exact.Some? && !AreSame(value.items, exact.value) then Some(InvalidValue(field))
      else if unique && ((exists i :: 0 <= i < |value.items| && !IsHashable(value.items[i])) || HasRepeats(value.items))
      then Some(InvalidValue(field))
      else if items.Some? then ValidateItems(classes, field, value.items, 0, items.value)
      else None
    case ObjectSpec(_, _, _, _, _) =>
      if !value.Object? then Some(InvalidType(field)) else ValidateObject(classes, field, value.fields, spec)
  }

  /** The items from this index on, in order. */
  function ValidateItems(classes: Classes, field: string, items: seq<Value>, index: nat, spec: FieldSpec): Option<Error>
    requires index <= |items|
    decreases spec, 3, |items| - index
  {
    if index == |items| then None
    else
      var error := ValidateField(classes, field + "[" + Decimal(index) + "]", items[index], spec);
      if error.Some? then error else ValidateItems(classes, field, items, index + 1, spec)
  }

  /**
   The listed fields from this index on, in order. A field that is absent is passed over, and so is
   one that an overriding list specifies again.
   */
  function ValidateEach(
    classes: Classes, prefix: string, fields: map<string, Value>, specs: seq<FieldDef>, index: nat,
    overridden: set<string>)
    : Option<Error>
    requires index <= |specs|
    decreases specs, 3, |specs| - index
  {
    if index == |specs| then None
    else if specs[index].name !in fields || specs[index].name in overridden then
      ValidateEach(classes, prefix, fields, specs, index + 1, overridden)
    else
      var error := ValidateField(classes, prefix + specs[index].name, fields[specs[index].name], specs[index].spec);
      if error.Some? then error else ValidateEach(classes, prefix, fields, specs, index + 1, overridden)
  }

  /** The case of this name: a later one replaces an earlier one. */
  function FindCase(cases: seq<CaseDef>, name: string): (r: Option<nat>)
    ensures r.Some? ==> IsLastCase(cases, r.value, name)
    ensures r.None? ==> forall n | 0 <= n < |cases| :: cases[n].name != name
  {
    if cases == [] then None
    else if cases[|cases| - 1].name == name then Some(|cases| - 1)
    else FindCase(cases[..|cases| - 1], name)
  }

  predicate IsLastCase(cases: seq<CaseDef>, n: int, name: string) {
    0 <= n < |cases| && cases[n].name == name && forall m | n < m < |cases| :: cases[m].name != name
  }

  function ValidateObject(classes: Classes, field: string, fields: map<string, Value>, spec: FieldSpec): Option<Error>
    requires spec.ObjectSpec?
    decreases spec, 1, 0
  {
    if !(Names(spec.required) <= fields.Keys) then Some(MissingField(field))
    else if spec.exactKeys && !(fields.Keys <= Names(spec.required) + Names(spec.optional))
      then Some(UnknownField(field))
    else
      var required := ValidateEach(classes, field + ".", fields, spec.required, 0, Names(spec.optional));
      if required.Some? then required
      else
        var optional := ValidateEach(classes, field + ".", fields, spec.optional, 0, {});
        if optional.Some? then optional
        else if exists k :: 0 <= k < |spec.ascending| && IsOutOfOrder(fields, spec.ascending[k])
          then Some(InvalidValue(field))
        else if spec.variants.None? then None
        else
          var variants := spec.variants.value;
          if variants.field !in fields || !fields[variants.field].Text? then Some(InvalidValue(field))
          else
            var found := FindCase(variants.cases, fields[variants.field].s);
            if found.None? then Some(InvalidValue(field))
            else ValidateEach(classes, field + ".", fields, variants.cases[found.value].fields, 0, {})
  }

  // ---------- The conformance relation ----------

  predicate StringConforms(classes: Classes, s: string, spec: FieldSpec)
    requires spec.StringSpec?
  {
    && (spec.minLength.Some? ==> spec.minLength.value <= |s|)
    && (spec.maxLength.Some? ==> |s| <= spec.maxLength.value)
    && (spec.names.Some? ==> s in spec.names.value)
    && (spec.pattern.Some? ==> spec.pattern.value(s))
    && (spec.forbidControls ==> forall c | c in s :: !IsForbidden(c, spec.allowNewlineTab))
    && (spec.forbidFormat ==> forall c | c in s :: !classes.isFormat(c))
    && (spec.notBlank ==> exists c :: c in s && !classes.isSpace(c))
  }

  /** The value is one that the specification describes. */
  ghost predicate Conforms(classes: Classes, value: Value, spec: FieldSpec)
    decreases spec, 1
  {
    match spec
    case StringSpec(_, _, _, _, _, _, _, _) => value.Text? && StringConforms(classes, value.s, spec)
    case BoolSpec(equals) => value.Bool? && (equals.Some? ==> value.b == equals.value)
    case IntSpec(values, minimum, maximum) =>
      && value.Int? && (values.Some? ==> value.i in values.value)
      && (minimum.Some? ==> minimum.value <= value.i) && (maximum.Some? ==> value.i <= maximum.value)
    case NumberSpec(finite) => value.Int? || (value.Float? && (finite ==> value.f.Finite?))
    case ListSpec(minItems, maxItems, exact, unique, items) =>
      && value.List?
      && (minItems.Some? ==> minItems.value <= |value.items|) && (maxItems.Some? ==> |value.items| <= maxItems.value)
      && (exact.Some? ==> AreSame(value.items, exact.value))
      && (unique ==> !HasRepeats(value.items) && forall item | item in value.items :: IsHashable(item))
      && (items.Some? ==> forall item | item in value.items :: Conforms(classes, item, items.value))
    case ObjectSpec(required, optional, exactKeys, ascending, variants) =>
      && value.Object?
      && Names(required) <= value.fields.Keys
      && (exactKeys ==> value.fields.Keys <= Names(required) + Names(optional))
      && EachConforms(classes, value.fields, required, Names(optional))
      && EachConforms(classes, value.fields, optional, {})
      && (forall pair | pair in ascending :: !IsOutOfOrder(value.fields, pair))
      && (variants.Some? ==>
            && variants.value.field in value.fields && value.fields[variants.value.field].Text?
            && exists n :: IsLastCase(variants.value.cases, n, value.fields[variants.value.field].s)
                 && EachConforms(classes, value.fields, variants.value.cases[n].fields, {}))
  }

  /** Every listed field that is present, and not specified again by an overriding list, conforms. */
  ghost predicate EachConforms(
    classes: Classes, fields: map<string, Value>, specs: seq<FieldDef>, overridden: set<string>)
    decreases specs, 2
  {
    forall k | 0 <= k < |specs| && specs[k].name in fields && specs[k].name !in overridden ::
      Conforms(classes, fields[specs[k].name], specs[k].spec)
  }

  // ---------- The interpreter decides conformance ----------

  lemma StripLeftIsBlank(isSpace: char -> bool, s: string)
    ensures StripLeft(isSpace, s) == "" <==> forall c | c in s :: isSpace(c)
  {
    if s != "" && isSpace(s[0]) {
      StripLeftIsBlank(isSpace, s[1..]);
      assert s == [s[0]] + s[1..];
    }
  }

  lemma BlankIsAllSpace(classes: Classes, s: string)
    ensures IsBlank(classes, s) <==> forall c | c in s :: classes.isSpace(c)
  {
    StripLeftIsBlank(classes.isSpace, s);
    var left := StripLeft(classes.isSpace, s);
    if left != "" {
      StripRightKeepsFirst(classes.isSpace, left);
    }
  }

  lemma {:induction false} StringDecides(classes: Classes, field: string, s: string, spec: FieldSpec)
    requires spec.StringSpec?
    ensures ValidateString(classes, field, s, spec).None? <==> StringConforms(classes, s, spec)
  {
    hide IsBlank;
    BlankIsAllSpace(classes, s);
  }

  /** Whatever the specification: no error is reported exactly when the value conforms. */
  lemma {:induction false} FieldDecides(classes: Classes, field: string, value: Value, spec: FieldSpec)
    ensures ValidateField(classes, field, value, spec).None? <==> Conforms(classes, value, spec)
    decreases spec, 2, 0
  {
    match spec
    case StringSpec(_, _, _, _, _, _, _, _) =>
      if value.Text? {
        StringDecides(classes, field, value.s, spec);
      }
    case ListSpec(_, _, _, _, items) =>
      if value.List? && items.Some? {
        ItemsDecide(classes, field, value.items, 0, items.value);
      }
    case ObjectSpec(_, _, _, _, _) =>
      if value.Object? {
        ObjectDecides(classes, field, value, spec);
      }
    case _ =>
  }

  lemma {:induction false} ItemsDecide(classes: Classes, field: string, items: seq<Value>, index: nat, spec: FieldSpec)
    requires index <= |items|
    ensures ValidateItems(classes, field, items, index, spec).None?
            <==> forall k | index <= k < |items| :: Conforms(classes, items[k], spec)
    decreases spec, 3, |items| - index
  {
    if index < |items| {
      FieldDecides(classes, field + "[" + Decimal(index) + "]", items[index], spec);
      ItemsDecide(classes, field, items, index + 1, spec);
    }
  }

  lemma {:induction false} EachDecides(
    classes: Classes, prefix: string, fields: map<string, Value>, specs: seq<FieldDef>, index: nat,
    overridden: set<string>)
    requires index <= |specs|
    ensures ValidateEach(classes, prefix, fields, specs, index, overridden).None?
            <==> forall k | index <= k < |specs| && specs[k].name in fields && specs[k].name !in overridden ::
                   Conforms(classes, fields[specs[k].name], specs[k].spec)
    decreases specs, 3, |specs| - index
  {
    if index < |specs| {
      if specs[index].name in fields {
        FieldDecides(classes, prefix + specs[index].name, fields[specs[index].name], specs[index].spec);
      }
      EachDecides(classes, prefix, fields, specs, index + 1, overridden);
    }
  }

  lemma {:induction false} ObjectDecides(classes: Classes, field: string, value: Value, spec: FieldSpec)
    requires spec.ObjectSpec? && value.Object?
    ensures ValidateObject(classes, field, value.fields, spec).None? <==> Conforms(classes, value, spec)
    decreases spec, 1, 0
  {
    var fields := value.fields;
    EachDecides(classes, field + ".", fields, spec.required, 0, Names(spec.optional));
    EachDecides(classes, field + ".", fields, spec.optional, 0, {});
    if spec.variants.Some? {
      var variants := spec.variants.value;
      if variants.field in fields && fields[variants.field].Text? {
        var found := FindCase(variants.cases, fields[variants.field].s);
        if found.Some? {
          EachDecides(classes, field + ".", fields, variants.cases[found.value].fields, 0, {});
        }
      }
    }
  }

  // ---------- Messages ----------

  datatype Equal = Equal(name: string, value: Value)

  datatype MessageCase = MessageCase(name: string, required: seq<string>, forbidden: seq<string>, equals: seq<Equal>)

  datatype MessageVariants = MessageVariants(field: string, cases: seq<MessageCase>)

  datatype MessageSpec = MessageSpec(
    required: seq<FieldDef>, optional: seq<FieldDef>, atLeastOne: seq<string>, variants: Option<MessageVariants>)

  /** A server message is specified by its fields' specifications or, in the older form, by their names alone. */
  datatype ServerSpec = Typed(spec: MessageSpec) | Legacy(names: seq<string>)

  type Message = map<string, Value>

  function Elements(names: seq<string>): set<string> {
    set name | name in names
  }

  function ValidateCase(message: Message, c: MessageCase): Option<Error> {
    if exists k :: 0 <= k < |c.required| && c.required[k] !in message then Some(MissingField(c.name))
    else if exists k :: 0 <= k < |c.forbidden| && c.forbidden[k] in message then Some(InvalidValue(c.name))
    else if exists k :: 0 <= k < |c.equals| && !Holds(message, c.equals[k]) then Some(InvalidValue(c.name))
    else None
  }

  /** A field that is not there counts as nothing. */
  lemma HoldsByValue(message: Message, e: Equal, value: Value)
    ensures Holds(message[e.name := value], e) <==> IsSame(value, e.value)
    ensures Holds(message - {e.name}, e) <==> e.value == Null
  {
  }

  predicate Holds(message: Message, e: Equal) {
    if e.name in message then IsSame(message[e.name], e.value) else e.value == Null
  }

  function FindMessageCase(cases: seq<MessageCase>, name: string): (r: Option<nat>)
    ensures r.Some? ==> IsLastMessageCase(cases, r.value, name)
    ensures r.None? ==> forall n | 0 <= n < |cases| :: cases[n].name != name
  {
    if cases == [] then None
    else if cases[|cases| - 1].name == name then Some(|cases| - 1)
    else FindMessageCase(cases[..|cases| - 1], name)
  }

  predicate IsLastMessageCase(cases: seq<MessageCase>, n: int, name: string) {
    0 <= n < |cases| && cases[n].name == name && forall m | n < m < |cases| :: cases[m].name != name
  }

  function ValidateMessage(classes: Classes, message: Message, spec: MessageSpec): Option<Error> {
    var fields := message.Keys - {"type"};
    if !(Names(spec.required) <= fields) then Some(MissingField(""))
    else if spec.atLeastOne != [] && fields * Elements(spec.atLeastOne) == {} then Some(MissingField(""))
    else if !(fields <= Names(spec.required) + Names(spec.optional)) then Some(UnknownField(""))
    else
      var required := ValidateEach(classes, "", message, spec.required, 0, Names(spec.optional));
      if required.Some? then required
      else
        var optional := ValidateEach(classes, "", message, spec.optional, 0, {});
        if optional.Some? then optional
        else if spec.variants.None? then None
        else
          var variants := spec.variants.value;
          if variants.field !in message || !message[variants.field].Text? then Some(InvalidValue(variants.field))
          else
            var found := FindMessageCase(variants.cases, message[variants.field].s);
            if found.None? then Some(InvalidValue(variants.field))
              else ValidateCase(message, variants.cases[found.value])
  }

  function ValidateServerMessage(classes: Classes, registry: map<string, ServerSpec>, message: Message): Option<Error> {
    if "type" !in message || !message["type"].Text? || message["type"].s !in registry then Some(UnknownMessage)
    else
      match registry[message["type"].s]
      case Typed(spec) => ValidateMessage(classes, message, spec)
      case Legacy(names) =>
        var fields := message.Keys - {"type"};
        if !(Elements(names) <= fields) then Some(MissingField(""))
        else if !(fields <= Elements(names)) then Some(UnknownField(""))
        else None
  }

  ghost predicate MessageConforms(classes: Classes, message: Message, spec: MessageSpec) {
    var fields := message.Keys - {"type"};
    && Names(spec.required) <= fields <= Names(spec.required) + Names(spec.optional)
    && (spec.atLeastOne != [] ==> exists name :: name in spec.atLeastOne && name in fields)
    && EachConforms(classes, message, spec.required, Names(spec.optional))
    && EachConforms(classes, message, spec.optional, {})
    && (spec.variants.Some? ==>
          && spec.variants.value.field in message && message[spec.variants.value.field].Text?
          && exists n :: IsLastMessageCase(spec.variants.value.cases, n, message[spec.variants.value.field].s)
               && CaseConforms(message, spec.variants.value.cases[n]))
  }

  ghost predicate CaseConforms(message: Message, c: MessageCase) {
    && (forall name | name in c.required :: name in message)
    && (forall name | name in c.forbidden :: name !in message)
    && (forall e | e in c.equals :: Holds(message, e))
  }

  /** A server message of a known type that has what its type asks for, and nothing else. */
  ghost predicate ServerMessageConforms(classes: Classes, registry: map<string, ServerSpec>, message: Message) {
    && "type" in message && message["type"].Text? && message["type"].s in registry
    && match registry[message["type"].s]
       case Typed(spec) => MessageConforms(classes, message, spec)
       case Legacy(names) => message.Keys - {"type"} == Elements(names)
  }

  lemma {:induction false} MessageDecides(classes: Classes, message: Message, spec: MessageSpec)
    ensures ValidateMessage(classes, message, spec).None? <==> MessageConforms(classes, message, spec)
  {
    hide ValidateEach, Conforms;
    EachDecides(classes, "", message, spec.required, 0, Names(spec.optional));
    EachDecides(classes, "", message, spec.optional, 0, {});
    if exists name :: name in spec.atLeastOne && name in message.Keys - {"type"} {
      var name :| name in spec.atLeastOne && name in message.Keys - {"type"};
      assert name in (message.Keys - {"type"}) * Elements(spec.atLeastOne);
    }
  }

  /** The validator accepts a server message exactly when it conforms. */
  lemma {:induction false} ServerMessageDecides(classes: Classes, registry: map<string, ServerSpec>, message: Message)
    ensures ValidateServerMessage(classes, registry, message).None? <==>
            ServerMessageConforms(classes, registry, message)
  {
    hide ValidateMessage, MessageConforms;
    if "type" in message && message["type"].Text? && message["type"].s in registry {
      match registry[message["type"].s]
      case Typed(spec) => MessageDecides(classes, message, spec);
      case Legacy(_) =>
    }
  }
}
