/** Receiver-defined request bodies: validating a template and rendering it against an event. */
module Template {
  import opened Wrappers
  import opened Json

  const REF := "$ref"
  const JSON := "$json"

  predicate IsRef(j: Json) { j.Obj? && REF in j.fields }

  predicate IsJson(j: Json) { j.Obj? && REF !in j.fields && JSON in j.fields }

  /** An object or array that is copied with its children rendered. */
  predicate IsPlain(j: Json) { !IsRef(j) && !IsJson(j) }

  // ---- validate_template ----

  predicate Valid(template: Json)
  {
    match template
    case Obj(fields) =>
      if REF in fields then |fields| == 1 && fields[REF].Str? && ValidPointer(fields[REF].s)
      else if JSON in fields then |fields| == 1 && Valid(fields[JSON])
      else forall k | k in fields :: Valid(fields[k])
    case Arr(items) => forall i | 0 <= i < |items| :: Valid(items[i])
    case _ => true
  }

  // ---- render ----

  function Render(template: Json, context: Json, encode: Json -> string): Option<Json>
    decreases template
  {
    match template
    case Obj(fields) =>
      if REF in fields then (if fields[REF].Str? then Lookup(context, fields[REF].s) else None)
      else if JSON in fields then
        var child := Render(fields[JSON], context, encode);
        if child.Some? then Some(Str(encode(child.value))) else None
      else if forall k | k in fields :: Render(fields[k], context, encode).Some? then
        Some(Obj(map k | k in fields :: Render(fields[k], context, encode).value))
      else None
    case Arr(items) =>
      if forall i | 0 <= i < |items| :: Render(items[i], context, encode).Some? then
        Some(Arr(seq(|items|, i requires 0 <= i < |items| => Render(items[i], context, encode).value)))
      else None
    case _ => Some(template)
  }

  // ---- when rendering succeeds ----

  /** Reference p is referred to somewhere in the template. */
  ghost predicate RefersTo(template: Json, p: string)
    decreases template
  {
    match template
    case Obj(fields) =>
      if REF in fields then fields[REF] == Str(p)
      else if JSON in fields then RefersTo(fields[JSON], p)
      else exists k | k in fields :: RefersTo(fields[k], p)
    case Arr(items) => exists i | 0 <= i < |items| :: RefersTo(items[i], p)
    case _ => false
  }

  ghost predicate Resolves(template: Json, context: Json)
  {
    forall p :: RefersTo(template, p) ==> Lookup(context, p).Some?
  }

  /** A validated template renders exactly when every pointer it refers to is present. */
  lemma {:induction false} RendersIffResolves(template: Json, context: Json, encode: Json -> string)
    requires Valid(template)
    ensures Render(template, context, encode).Some? <==> Resolves(template, context)
    decreases template
  {
    match template
    case Obj(fields) =>
      if REF in fields {
        assert forall p :: RefersTo(template, p) <==> p == fields[REF].s;
      } else if JSON in fields {
        RendersIffResolves(fields[JSON], context, encode);
        assert forall p :: RefersTo(template, p) <==> RefersTo(fields[JSON], p);
      } else {
        forall k | k in fields ensures Render(fields[k], context, encode).Some? <==> Resolves(fields[k], context) {
          RendersIffResolves(fields[k], context, encode);
        }
        assert forall p, k | k in fields && RefersTo(fields[k], p) :: RefersTo(template, p);
        assert forall p | RefersTo(template, p) :: exists k | k in fields :: RefersTo(fields[k], p);
      }
    case Arr(items) =>
      forall i | 0 <= i < |items| ensures Render(items[i], context, encode).Some? <==> Resolves(items[i], context) {
        RendersIffResolves(items[i], context, encode);
      }
      assert forall p, i | 0 <= i < |items| && RefersTo(items[i], p) :: RefersTo(template, p);
      assert forall p | RefersTo(template, p) :: exists i | 0 <= i < |items| :: RefersTo(items[i], p);
    case _ =>
  }

  // ---- what rendering yields, position by position ----

  datatype Step = Key(k: string) | Item(i: nat)

  function Down(j: Json, step: Step): Option<Json>
  {
    match step
    case Key(k) => if j.Obj? && k in j.fields then Some(j.fields[k]) else None
    case Item(i) => if j.Arr? && i < |j.items| then Some(j.items[i]) else None
  }

  /** The value at a position. */
  function At(j: Json, path: seq<Step>): Option<Json>
  {
    if path == [] then Some(j)
    else if Down(j, path[0]).None? then None
    else At(Down(j, path[0]).value, path[1..])
  }

  // ---- what validation rejects ----

  /** A position validation looks at: everything down to a reference, through `$json` too. */
  predicate Examined(template: Json, path: seq<Step>)
  {
    path != [] ==>
      && !IsRef(template) && (IsJson(template) ==> path[0] == Key(JSON)) && Down(template, path[0]).Some?
      && Examined(Down(template, path[0]).value, path[1..])
  }

  /** A reference or a `$json` with another key beside it, or a reference that is no JSON Pointer. */
  ghost predicate Malformed(j: Json)
  {
    && j.Obj?
    && (if "$ref" in j.fields then
          || j.fields.Keys != {"$ref"} || !j.fields["$ref"].Str?
          || !exists tokens :: TokensOk(tokens) && WrittenPointer(tokens) == j.fields["$ref"].s
        else "$json" in j.fields && j.fields.Keys != {"$json"})
  }

  lemma OneKey(fields: map<string, Json>, k: string)
    requires k in fields
    ensures |fields| == 1 <==> fields.Keys == {k}
  {
    assert |fields| == |fields.Keys|;
    assert fields.Keys == {k} + (fields.Keys - {k});
  }

  ghost predicate NoneMalformed(template: Json)
  {
    forall path | Examined(template, path) && At(template, path).Some? :: !Malformed(At(template, path).value)
  }

  lemma ExaminedAt(template: Json, path: seq<Step>)
    requires Examined(template, path)
    ensures At(template, path).Some?
  {
  }

  lemma NoneMalformedBelow(template: Json, step: Step)
    requires NoneMalformed(template) && Examined(template, [step])
    ensures NoneMalformed(Down(template, step).value)
  {
    hide Malformed;
    var child := Down(template, step).value;
    forall path | Examined(child, path) && At(child, path).Some? ensures !Malformed(At(child, path).value) {
      var longer := [step] + path;
      assert longer[0] == step && longer[1..] == path;
      assert Examined(template, longer) && At(template, longer) == At(child, path);
    }
  }

  /** A template is accepted exactly when nothing malformed stands at any position looked at. */
  lemma {:induction false} ValidIffNoneMalformed(template: Json)
    ensures Valid(template) <==> NoneMalformed(template)
    decreases template
  {
    hide Malformed;
    RootMalformed(template);
    if NoneMalformed(template) {
      assert Examined(template, []) && At(template, []) == Some(template);
      if !IsRef(template) {
        match template
        case Obj(fields) =>
          if JSON in fields {
            NoneMalformedBelow(template, Key(JSON));
            ValidIffNoneMalformed(fields[JSON]);
          } else {
            forall k | k in fields ensures Valid(fields[k]) {
              NoneMalformedBelow(template, Key(k));
              ValidIffNoneMalformed(fields[k]);
            }
          }
        case Arr(items) =>
          forall i | 0 <= i < |items| ensures Valid(items[i]) {
            NoneMalformedBelow(template, Item(i));
            ValidIffNoneMalformed(items[i]);
          }
        case _ =>
      }
    }
    if Valid(template) {
      forall path | Examined(template, path) && At(template, path).Some? ensures !Malformed(At(template, path).value) {
        if path != [] {
          var child := Down(template, path[0]).value;
          ValidBelow(template, path[0]);
          ValidIffNoneMalformed(child);
        }
      }
    }
  }

  lemma ValidBelow(template: Json, step: Step)
    requires Valid(template) && Down(template, step).Some?
    requires !IsRef(template) && (IsJson(template) ==> step == Key(JSON))
    ensures Valid(Down(template, step).value) && Down(template, step).value < template
  {
  }

  /** The test at one node. */
  lemma RootMalformed(template: Json)
    ensures Valid(template) ==> !Malformed(template)
    ensures IsRef(template) && !Malformed(template) ==> Valid(template)
    ensures IsJson(template) && !Malformed(template) ==> |template.fields| == 1
  {
    if template.Obj? {
      if REF in template.fields {
        OneKey(template.fields, REF);
        if template.fields[REF].Str? { PointerGrammar(template.fields[REF].s); }
      } else if JSON in template.fields {
        OneKey(template.fields, JSON);
      }
    }
  }

  /** A position of the template reached through copied objects and arrays only. */
  predicate Copied(template: Json, path: seq<Step>)
  {
    path != [] ==>
      IsPlain(template) && Down(template, path[0]).Some? && Copied(Down(template, path[0]).value, path[1..])
  }

  /** What must stand in the result where the template has `node`. */
  ghost predicate Stands(node: Json, result: Json, context: Json, encode: Json -> string)
  {
    if IsRef(node) then node.fields[REF].Str? && Lookup(context, node.fields[REF].s) == Some(result)
    else if IsJson(node) then
      var child := Render(node.fields[JSON], context, encode);
      child.Some? && result == Str(encode(child.value))
    else match node
      case Obj(fields) => result.Obj? && result.fields.Keys == fields.Keys
      case Arr(items) => result.Arr? && |result.items| == |items|
      case _ => result == node
  }

  lemma RenderedChild(template: Json, context: Json, encode: Json -> string, step: Step)
    requires IsPlain(template) && Render(template, context, encode).Some? && Down(template, step).Some?
    ensures Render(Down(template, step).value, context, encode).Some?
    ensures Down(Render(template, context, encode).value, step) == Render(Down(template, step).value, context, encode)
  {
  }

  /** At every position outside references the result is the template: same keys, same array lengths,
      same literals; each reference is replaced by the value looked up, whatever that value contains,
      and each `$json` by the text of its rendered child. */
  lemma {:induction false} RenderedAt(template: Json, context: Json, encode: Json -> string, path: seq<Step>)
    requires Render(template, context, encode).Some? && Copied(template, path)
    ensures At(template, path).Some? && At(Render(template, context, encode).value, path).Some?
    ensures Stands(At(template, path).value, At(Render(template, context, encode).value, path).value, context, encode)
    decreases |path|
  {
    if path != [] {
      RenderedChild(template, context, encode, path[0]);
      RenderedAt(Down(template, path[0]).value, context, encode, path[1..]);
    }
  }

  /** The result has no other positions: what is not copied from the template is inside a value that
      was looked up or serialized. */
  lemma {:induction false} NothingElse(template: Json, context: Json, encode: Json -> string, path: seq<Step>)
    requires Render(template, context, encode).Some? && At(Render(template, context, encode).value, path).Some?
    ensures Copied(template, path) || exists n: nat :: InsideInsertion(template, path, n)
    decreases |path|
  {
    if path != [] {
      if !IsPlain(template) {
        assert InsideInsertion(template, path, 0);
      } else {
        assert Down(template, path[0]).Some?;
        var child := Down(template, path[0]).value;
        RenderedChild(template, context, encode, path[0]);
        NothingElse(child, context, encode, path[1..]);
        if n: nat :| InsideInsertion(child, path[1..], n) {
          assert path[..n + 1][1..] == path[1..][..n];
          assert InsideInsertion(template, path, n + 1);
        }
      }
    }
  }

  /** The first n steps reach a `$ref` or `$json` of the template, and the path goes on below it. */
  ghost predicate InsideInsertion(template: Json, path: seq<Step>, n: nat)
  {
    && n < |path| && Copied(template, path[..n]) && At(template, path[..n]).Some?
    && !IsPlain(At(template, path[..n]).value)
  }
}
