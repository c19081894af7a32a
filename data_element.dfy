/**
 * `XmlStorage.Components.DataElement`: one saved key/value pair and the full name of the
 * value's type, with the argument checks of `Set`. A C# `null` is `None`; a `System.Type`
 * is reduced to its `FullName`, which .NET may itself report as `null`.
 */
module XmlStorageData {
  import opened Wrappers

  /** The exceptions the checks raise, with their constructor arguments in the order the source passes them. */
  datatype Exception =
    | ArgumentNullException(paramName: string, message: string)
    | ArgumentException(message: string, paramName: string)
    | NullReferenceException

  /** The outcome of a constructor call: the new element, or the exception it raised. */
  datatype Result<T> = Constructed(value: T) | Thrown(error: Exception)

  /** A `System.Type`, as far as `DataElement` uses it. */
  datatype TypeInfo = TypeInfo(fullName: Option<string>)

  /** The arguments `Set` accepts: a non-empty key, a value, and a non-empty type name. */
  predicate Acceptable<V>(key: Option<string>, value: Option<V>, typeName: Option<string>)
  {
    key.Some? && key.value != "" && value.Some? && typeName.Some? && typeName.value != ""
  }

  /**
   * The exception `Set(string key, object value, string type)` raises, if any. The key is
   * checked first, then the value, then the type name, and the first failure wins. The
   * empty-key and empty-type exceptions pass the parameter name as the message and the
   * message as the parameter name, as the source does.
   */
  function SetError<V>(key: Option<string>, value: Option<V>, typeName: Option<string>): (r: Option<Exception>)
    ensures r.None? <==> Acceptable(key, value, typeName)
    ensures key.None? ==> r == Some(ArgumentNullException("key", "Key cannot be null."))
    ensures key == Some("") ==> r == Some(ArgumentException("key", "Key cannot be empty."))
    ensures key.Some? && key.value != "" && value.None? ==>
      r == Some(ArgumentNullException("value", "Value cannot be null."))
    ensures key.Some? && key.value != "" && value.Some? && typeName.None? ==>
      r == Some(ArgumentNullException("type", "Type cannnot be null."))
    ensures key.Some? && key.value != "" && value.Some? && typeName == Some("") ==>
      r == Some(ArgumentException("type", "Type cannot be empty."))
  {
    if key.None? then Some(ArgumentNullException("key", "Key cannot be null."))
    else if key.value == "" then Some(ArgumentException("key", "Key cannot be empty."))
    else if value.None? then Some(ArgumentNullException("value", "Value cannot be null."))
    else if typeName.None? then Some(ArgumentNullException("type", "Type cannnot be null."))
    else if typeName.value == "" then Some(ArgumentException("type", "Type cannot be empty."))
    else None
  }

  /**
   * The exception `Set(string key, object value, Type type)` raises: reading `type.FullName`
   * comes before every check, so a null type raises `NullReferenceException` whatever the
   * key and value are; otherwise it is the string overload's exception for the full name.
   */
  function SetTypeError<V>(key: Option<string>, value: Option<V>, t: Option<TypeInfo>): (r: Option<Exception>)
    ensures t.None? ==> r == Some(NullReferenceException)
    ensures r.None? <==> t.Some? && Acceptable(key, value, t.value.fullName)
    ensures t.Some? && r.Some? ==> r == SetError(key, value, t.value.fullName)
  {
    if t.None? then Some(NullReferenceException) else SetError(key, value, t.value.fullName)
  }

  class DataElement<V> {
    /** `Key`, `Value` and `TypeName`; `None` is the `null` of a freshly allocated object. */
    var key: Option<string>
    var value: Option<V>
    var typeName: Option<string>

    /** The object as allocated, before a constructor body runs: every field `null`. */
    constructor Allocated()
      ensures key.None? && value.None? && typeName.None?
    {
      key, value, typeName := None, None, None;
    }

    /**
     * `Set(string key, object value, string type)`: on a failed check the exception is
     * raised and no field changes; otherwise the three fields take the arguments.
     */
    method Set(key: Option<string>, value: Option<V>, typeName: Option<string>) returns (error: Option<Exception>)
      modifies this
      ensures error == SetError(key, value, typeName)
      ensures error.Some? ==> this.key == old(this.key) && this.value == old(this.value) && this.typeName == old(this.typeName)
      ensures error.None? ==> this.key == key && this.value == value && this.typeName == typeName
    {
      if key.None? { return Some(ArgumentNullException("key", "Key cannot be null.")); }
      if key.value == "" { return Some(ArgumentException("key", "Key cannot be empty.")); }
      if value.None? { return Some(ArgumentNullException("value", "Value cannot be null.")); }
      if typeName.None? { return Some(ArgumentNullException("type", "Type cannnot be null.")); }
      if typeName.value == "" { return Some(ArgumentException("type", "Type cannot be empty.")); }
      this.key := key;
      this.value := value;
      this.typeName := typeName;
      return None;
    }

    /** `Set(string key, object value, Type type)`: the string overload with `type.FullName`. */
    method SetType(key: Option<string>, value: Option<V>, t: Option<TypeInfo>) returns (error: Option<Exception>)
      modifies this
      ensures error == SetTypeError(key, value, t)
      ensures error.Some? ==> this.key == old(this.key) && this.value == old(this.value) && this.typeName == old(this.typeName)
      ensures error.None? ==> this.key == key && this.value == value && this.typeName == t.value.fullName
    {
      if t.None? { return Some(NullReferenceException); }
      error := Set(key, value, t.value.fullName);
    }

    /**
     * `new DataElement(string key, object value, string type)`: the allocated object goes
     * through `Set`, so a constructed element holds the arguments, and a failed check
     * raises `Set`'s exception.
     */
    static method New(key: Option<string>, value: Option<V>, typeName: Option<string>) returns (r: Result<DataElement<V>>)
      ensures r.Thrown? <==> SetError(key, value, typeName).Some?
      ensures r.Thrown? ==> Some(r.error) == SetError(key, value, typeName)
      ensures r.Constructed? ==> fresh(r.value) && r.value.key == key && r.value.value == value && r.value.typeName == typeName
    {
      var e := new DataElement<V>.Allocated();
      var error := e.Set(key, value, typeName);
      if error.Some? { return Thrown(error.value); }
      return Constructed(e);
    }

    /** `new DataElement(string key, object value, Type type)`: the string constructor with `type.FullName`. */
    static method NewWithType(key: Option<string>, value: Option<V>, t: Option<TypeInfo>) returns (r: Result<DataElement<V>>)
      ensures r.Thrown? <==> SetTypeError(key, value, t).Some?
      ensures r.Thrown? ==> Some(r.error) == SetTypeError(key, value, t)
      ensures r.Constructed? ==> fresh(r.value) && r.value.key == key && r.value.value == value && r.value.typeName == t.value.fullName
    {
      if t.None? { return Thrown(NullReferenceException); }
      r := New(key, value, t.value.fullName);
    }
  }
}
