/** `monthToNumber`: month names to zero-based month indices. */
module Months {
  import opened Results
  import opened Text

  /** The `months` dictionary of `monthToNumber`. */
  const MonthTable: map<string, nat> :=
    map["january" := 0, "february" := 1, "march" := 2, "april" := 3,
        "may" := 4, "june" := 5, "july" := 6, "august" := 7,
        "september" := 8, "october" := 9, "november" := 10, "december" := 11]

  /** The twelve English month names in calendar order. */
  const MonthNames: seq<string> :=
    ["january", "february", "march", "april", "may", "june", "july",
     "august", "september", "october", "november", "december"]

  /** The dictionary maps the `i`-th month name to `i` and holds nothing else. */
  lemma TableMatchesNames()
    ensures forall k :: k in MonthTable ==> MonthTable[k] < |MonthNames| && MonthNames[MonthTable[k]] == k
    ensures forall i :: 0 <= i < |MonthNames| ==> MonthNames[i] in MonthTable && MonthTable[MonthNames[i]] == i
  {
  }

  /** `monthToNumber` with only the dictionary's own keys: the lower-cased
      name is looked up, and a name not in it gives `undefined`. */
  function MonthToNumber(name: string): (r: Option<nat>)
    ensures r.Some? ==> r.value < 12 && MonthNames[r.value] == ToLower(name)
    ensures r.None? ==> forall i :: 0 <= i < 12 ==> MonthNames[i] != ToLower(name)
  {
    TableMatchesNames();
    var key := ToLower(name);
    if key in MonthTable then Some(MonthTable[key]) else None
  }

  /** A name resolves to `i` exactly when its lower case is the `i`-th month. */
  lemma MonthToNumberExactly(name: string, i: nat)
    requires i < 12
    ensures MonthToNumber(name) == Some(i) <==> ToLower(name) == MonthNames[i]
  {
    MonthNamesDistinct();
  }

  /** The lookup ignores case: names that agree up to case resolve alike. */
  lemma MonthToNumberIgnoresCase(a: string, b: string)
    requires ToLower(a) == ToLower(b)
    ensures MonthToNumber(a) == MonthToNumber(b)
  {
  }

  /** Every month name, in any capitalisation, resolves to its index. */
  lemma MonthNameResolves(name: string, i: nat)
    requires i < 12 && ToLower(name) == MonthNames[i]
    ensures MonthToNumber(name) == Some(i)
  {
    MonthToNumberExactly(name, i);
  }

  lemma MonthNamesDistinct()
    ensures forall i, j :: 0 <= i < j < |MonthNames| ==> MonthNames[i] != MonthNames[j]
  {
    forall i, j | 0 <= i < j < |MonthNames| ensures MonthNames[i] != MonthNames[j] {
      assert |MonthNames[i]| != |MonthNames[j]| || MonthNames[i][0] != MonthNames[j][0]
        || MonthNames[i][1] != MonthNames[j][1] || MonthNames[i][2] != MonthNames[j][2];
    }
  }

  /** The value of `months[key]` on the object literal of `monthToNumber`:
      an own month entry, a member inherited from `Object.prototype`, or
      `undefined`. */
  datatype Property = Undefined | MonthIndex(index: nat) | Inherited(key: string)

  /** The members every plain object inherits from `Object.prototype`. */
  const ObjectPrototypeKeys: set<string> :=
    {"constructor", "hasOwnProperty", "isPrototypeOf", "propertyIsEnumerable",
     "toLocaleString", "toString", "valueOf", "__proto__",
     "__defineGetter__", "__defineSetter__", "__lookupGetter__", "__lookupSetter__"}

  /** `monthToNumber` as written: `months[month.toLowerCase()]` also finds
      the inherited members of the object literal. */
  function MonthToNumberAsWritten(name: string): (r: Property)
    ensures r.MonthIndex? <==> MonthToNumber(name).Some?
    ensures r.MonthIndex? ==> r.index == MonthToNumber(name).value
    ensures r.Inherited? <==> MonthToNumber(name).None? && ToLower(name) in ObjectPrototypeKeys
    ensures r.Inherited? ==> r.key == ToLower(name)
  {
    var key := ToLower(name);
    if key in MonthTable then MonthIndex(MonthTable[key])
    else if key in ObjectPrototypeKeys then Inherited(key)
    else Undefined
  }

  /** Apart from the two lower-case inherited keys, the lookup as written and
      the own-key lookup agree on which names are `undefined`. */
  lemma AsWrittenAgreesElsewhere(name: string)
    requires ToLower(name) != "constructor" && ToLower(name) != "__proto__"
    ensures MonthToNumberAsWritten(name).Undefined? <==> MonthToNumber(name).None?
  {
    var key := ToLower(name);
    ToLowerIdempotent(name);
    if key in ObjectPrototypeKeys {
      assert key == ToLower(key);
      forall k | k in ObjectPrototypeKeys - {"constructor", "__proto__"}
        ensures k != ToLower(k)
      {
        UpperWitness(k);
      }
    }
  }

  /** Each camel-case inherited key has an upper-case letter, so no lower-cased
      name can equal it. */
  lemma UpperWitness(k: string)
    requires k in ObjectPrototypeKeys - {"constructor", "__proto__"}
    ensures k != ToLower(k)
  {
    var i := UpperIndex(k);
    ToLowerAt(k);
    assert ToLower(k)[i] == LowerChar(k[i]) != k[i];
  }

  /** Where the camel-case inherited keys have an upper-case letter. */
  function UpperIndex(k: string): (i: nat)
    requires k in ObjectPrototypeKeys - {"constructor", "__proto__"}
    ensures i < |k| && IsUpper(k[i])
  {
    if k == "hasOwnProperty" then 3
    else if k == "valueOf" then 5
    else if k == "isPrototypeOf" then 2
    else if k == "toLocaleString" then 2
    else if k == "toString" then 2
    else if k == "propertyIsEnumerable" then 8
    else if k == "__defineGetter__" then 8
    else if k == "__defineSetter__" then 8
    else if k == "__lookupGetter__" then 8
    else 8
  }

  /** The guard of `/barchart` and `/statistics` as written (lines 31-38):
      a falsy month is "required", and only `undefined` is "invalid". */
  function RequiredMonthAsWritten(month: Option<string>): (r: Result<Property>)
    ensures r.Err? <==> (month.None? || month == Some("")
                         || MonthToNumberAsWritten(month.value).Undefined?)
    ensures r == Err(MonthRequired) <==> month.None? || month == Some("")
    ensures r == Err(InvalidMonth) <==>
              month.Some? && month != Some("") && MonthToNumberAsWritten(month.value).Undefined?
    ensures r.Ok? ==> month.Some? && r.value == MonthToNumberAsWritten(month.value)
  {
    if month.None? || month == Some("") then Err(MonthRequired)
    else
      var number := MonthToNumberAsWritten(month.value);
      if number.Undefined? then Err(InvalidMonth) else Ok(number)
  }

  /** The month "constructor" is no month, yet it passes the guard as written:
      the routes then answer 200 with every aggregate zero, where the
      intended answer is 400 "Invalid month value". */
  lemma GuardsOnConstructor()
    ensures RequiredMonthAsWritten(Some("constructor")) == Ok(Inherited("constructor"))
    ensures RequiredMonth(Some("constructor")) == Err(InvalidMonth)
  {
    ConstructorLookups();
  }

  /** What the two lookups give for "constructor". */
  lemma ConstructorLookups()
    ensures MonthToNumber("constructor") == None
    ensures MonthToNumberAsWritten("constructor") == Inherited("constructor")
  {
    LowerConstructor();
    MonthKeysShort();
    assert "constructor" !in MonthTable;
    assert "constructor" in ObjectPrototypeKeys;
  }

  /** The month "__proto__" passes the guard as written in the same way: the
      lookup finds `Object.prototype`. */
  lemma GuardsOnProto()
    ensures RequiredMonthAsWritten(Some("__proto__")) == Ok(Inherited("__proto__"))
    ensures RequiredMonth(Some("__proto__")) == Err(InvalidMonth)
  {
    ProtoLookups();
  }

  /** What the two lookups give for "__proto__". */
  lemma ProtoLookups()
    ensures MonthToNumber("__proto__") == None
    ensures MonthToNumberAsWritten("__proto__") == Inherited("__proto__")
  {
    LowerProto();
    assert "__proto__"[0] == '_';
    assert "__proto__" !in MonthTable;
    assert "__proto__" in ObjectPrototypeKeys;
  }

  lemma LowerProto()
    ensures ToLower("__proto__") == "__proto__"
  {
    var s := "__proto__";
    assert s[0] == '_' && s[1] == '_' && s[2] == 'p' && s[3] == 'r' && s[4] == 'o';
    assert s[5] == 't' && s[6] == 'o' && s[7] == '_' && s[8] == '_';
    forall i | 0 <= i < |s| ensures !IsUpper(s[i]) {
      assert i in {0, 1, 2, 3, 4, 5, 6, 7, 8};
    }
    ToLowerOfLower(s);
  }

  lemma LowerConstructor()
    ensures ToLower("constructor") == "constructor"
  {
    var s := "constructor";
    assert s[0] == 'c' && s[1] == 'o' && s[2] == 'n' && s[3] == 's' && s[4] == 't' && s[5] == 'r';
    assert s[6] == 'u' && s[7] == 'c' && s[8] == 't' && s[9] == 'o' && s[10] == 'r';
    forall i | 0 <= i < |s| ensures !IsUpper(s[i]) {
      assert i in {0, 1, 2, 3, 4, 5, 6, 7, 8, 9, 10};
    }
    ToLowerOfLower(s);
  }

  /** No month name is longer than nine letters. */
  lemma MonthKeysShort()
    ensures forall k :: k in MonthTable ==> |k| <= 9
  {
  }

  /** The guard of `/barchart` and `/statistics`, with `undefined` for every
      name that is not one of the twelve months. */
  function RequiredMonth(month: Option<string>): (r: Result<nat>)
    ensures r == Err(MonthRequired) <==> month.None? || month == Some("")
    ensures r == Err(InvalidMonth) <==>
      month.Some? && month != Some("") && MonthToNumber(month.value).None?
    ensures r.Ok? ==> (month.Some? && r.value < 12
                       && ToLower(month.value) == MonthNames[r.value])
  {
    if month.None? || month == Some("") then Err(MonthRequired)
    else
      var number := MonthToNumber(month.value);
      if number.None? then Err(InvalidMonth) else Ok(number.value)
  }
}
