/**
 * The value model: for each static type, the JVM type descriptor used in a
 * method header and the class a call result is narrowed to. Integers and
 * booleans are boxed (`java/lang/Integer`, `java/lang/Boolean`), lists are the
 * runtime class `List`, function values the runtime class `Fptr`.
 */
module Descriptors {
  import opened Wrappers
  import opened Ast

  /** The runtime class that represents values of type `t`; `None` for void. */
  function RuntimeClass(t: Type): (r: Option<string>)
    ensures r.None? <==> t.VoidType?
  {
    match t
    case IntType => Some("java/lang/Integer")
    case BoolType => Some("java/lang/Boolean")
    case StringType => Some("java/lang/String")
    case FptrType(_) => Some("Fptr")
    case ListType(_) => Some("List")
    case VoidType => None
  }

  /**
   * The descriptor of one parameter in a method header. A parameter whose type
   * is missing from the signature, or is void, contributes nothing.
   */
  function ArgDescriptor(t: Option<Type>): string
  {
    match t
    case None => ""
    case Some(IntType) => "Ljava/lang/Integer;"
    case Some(BoolType) => "Ljava/lang/Boolean;"
    case Some(StringType) => "Ljava/lang/String;"
    case Some(FptrType(_)) => "LFptr;"
    case Some(ListType(_)) => "LList;"
    case Some(VoidType) => ""
  }

  /** The return descriptor of a method header: as a parameter, and `V` for void. */
  function ReturnDescriptor(t: Type): string
  {
    if t.VoidType? then "V" else ArgDescriptor(Some(t))
  }

  /** The narrowing emitted after `Fptr/invoke`: none for a void callee. */
  function CheckcastFor(t: Type): seq<string>
  {
    match t
    case IntType => ["checkcast java/lang/Integer"]
    case BoolType => ["checkcast java/lang/Boolean"]
    case StringType => ["checkcast java/lang/String"]
    case ListType(_) => ["checkcast List"]
    case FptrType(_) => ["checkcast Fptr"]
    case VoidType => []
  }

  /**
   * The three tables agree: a non-void type's header descriptor is the object
   * descriptor `L<class>;` of its runtime class, and a call returning it is
   * narrowed to that same class; void has the descriptor `V` and no narrowing.
   */
  lemma DescriptorsAgree(t: Type)
    ensures t.VoidType? ==> ReturnDescriptor(t) == "V" && CheckcastFor(t) == [] && ArgDescriptor(Some(t)) == ""
    ensures !t.VoidType? ==>
      ReturnDescriptor(t) == ArgDescriptor(Some(t)) == ObjectDescriptor(RuntimeClass(t).value) &&
      CheckcastFor(t) == [Checkcast(RuntimeClass(t).value)]
  {
    if t.IntType? || t.BoolType? || t.StringType? {
      BoxedAgree(t);
    } else if !t.VoidType? {
      RuntimeAgree(t);
    }
  }

  /** `DescriptorsAgree` for the types whose values are `java/lang` objects. */
  lemma BoxedAgree(t: Type)
    requires t.IntType? || t.BoolType? || t.StringType?
    ensures ReturnDescriptor(t) == ArgDescriptor(Some(t)) == ObjectDescriptor(RuntimeClass(t).value)
    ensures CheckcastFor(t) == [Checkcast(RuntimeClass(t).value)]
  {
    match t
    case IntType => ClassStrings("java/lang/Integer", "Ljava/lang/Integer;", "checkcast java/lang/Integer");
    case BoolType => ClassStrings("java/lang/Boolean", "Ljava/lang/Boolean;", "checkcast java/lang/Boolean");
    case StringType => ClassStrings("java/lang/String", "Ljava/lang/String;", "checkcast java/lang/String");
  }

  /** `DescriptorsAgree` for lists and function values, which are objects of the runtime library. */
  lemma RuntimeAgree(t: Type)
    requires t.ListType? || t.FptrType?
    ensures ReturnDescriptor(t) == ArgDescriptor(Some(t)) == ObjectDescriptor(RuntimeClass(t).value)
    ensures CheckcastFor(t) == [Checkcast(RuntimeClass(t).value)]
  {
    match t
    case ListType(_) => ClassStrings("List", "LList;", "checkcast List");
    case FptrType(_) => ClassStrings("Fptr", "LFptr;", "checkcast Fptr");
  }

  function ObjectDescriptor(cls: string): string { "L" + cls + ";" }

  function Checkcast(cls: string): string { "checkcast " + cls }

  lemma ClassStrings(cls: string, desc: string, cast: string)
    requires desc == "L" + cls + ";" && cast == "checkcast " + cls
    ensures ObjectDescriptor(cls) == desc && Checkcast(cls) == cast
  {
  }

  /** Distinct runtime representations get distinct descriptors (lists and function values each share one). */
  lemma DescriptorDeterminesClass(t1: Type, t2: Type)
    requires !t1.VoidType? && !t2.VoidType?
    requires ArgDescriptor(Some(t1)) == ArgDescriptor(Some(t2))
    ensures RuntimeClass(t1) == RuntimeClass(t2)
  {
  }
}
