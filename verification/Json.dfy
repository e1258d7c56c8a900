/** JSON values and the rewriting of column ids in them
    (apps/workspaces/migrations/0005_global_personal_board.py). */
module Json {
  import opened Options

  datatype Value =
    | Null
    | Bool(flag: bool)
    | Number(text: string)
    | Str(s: string)
    | Array(items: seq<Value>)
    | Object(fields: map<string, Value>)

  /** `names.get(s, s)` */
  function Renamed(s: string, names: map<string, string>): string {
    if s in names then names[s] else s
  }

  /** _rewrite_column_reference */
  function Rewrite(v: Value, names: map<string, string>): Value {
    match v
    case Object(fields) => Object(map k | k in fields :: Rewrite(fields[k], names))
    case Array(items) => Array(seq(|items|, i requires 0 <= i < |items| => Rewrite(items[i], names)))
    case Str(s) => Str(Renamed(s, names))
    case _ => v
  }

  // ---------- Paths ----------

  datatype Step = Key(key: string) | Index(index: nat)

  /** What stands at a path from the root. */
  function At(v: Value, path: seq<Step>): Option<Value>
    decreases |path|
  {
    if path == [] then Some(v)
    else
      match (v, path[0])
      case (Object(fields), Key(k)) => if k in fields then At(fields[k], path[1..]) else None
      case (Array(items), Index(i)) => if i < |items| then At(items[i], path[1..]) else None
      case _ => None
  }

  /** The same kind of value, with the same keys or the same length. */
  ghost predicate SameShape(a: Value, b: Value) {
    match a
    case Object(fields) => b.Object? && b.fields.Keys == fields.Keys
    case Array(items) => b.Array? && |b.items| == |items|
    case Str(_) => b.Str?
    case _ => a == b
  }

  /** Rewriting changes nothing but known names: at every path there is the
      same shape as before, and a string is replaced exactly if it is known. */
  lemma {:induction false} RewriteAt(v: Value, names: map<string, string>, path: seq<Step>)
    ensures At(v, path).None? <==> At(Rewrite(v, names), path).None?
    ensures At(v, path).Some? ==>
              var was, now := At(v, path).value, At(Rewrite(v, names), path).value;
              && SameShape(was, now)
              && (was.Str? ==> now.s == if was.s in names then names[was.s] else was.s)
    decreases |path|
  {
    if path != [] {
      match (v, path[0])
      case (Object(fields), Key(k)) => if k in fields { RewriteAt(fields[k], names, path[1..]); }
      case (Array(items), Index(i)) => if i < |items| { RewriteAt(items[i], names, path[1..]); }
      case _ =>
    }
  }

  ghost predicate Mentions(v: Value, name: string) {
    exists path :: At(v, path) == Some(Str(name))
  }

  /** When no known name is itself a replacement, none is left afterwards. */
  lemma NoneLeft(v: Value, names: map<string, string>, name: string)
    requires name in names && forall k <- names :: names[k] != name
    ensures !Mentions(Rewrite(v, names), name)
  {
    if Mentions(Rewrite(v, names), name) {
      var path :| At(Rewrite(v, names), path) == Some(Str(name));
      RewriteAt(v, names, path);
    }
  }

  /** A mention of a column becomes a mention of its counterpart. */
  lemma MentionFollows(v: Value, names: map<string, string>, name: string)
    requires name in names && Mentions(v, name)
    ensures Mentions(Rewrite(v, names), names[name])
  {
    var path :| At(v, path) == Some(Str(name));
    RewriteAt(v, names, path);
  }
}
