/** The settings registry: static tables of categories and their options,
    looked up by index or by name (ignoring ASCII case), and getters and
    setters that reach the admin store only for an option of the matching
    type. The admin store (db_admin_get, db_admin_getint, db_admin_set,
    db_admin_setint) is a parameter. A NULL pointer is None. */
module Settings {
  import opened Common

  datatype SettingsType = TypeInt | TypeBool | TypeStr | TypeCategory

  datatype SettingsOption = SettingsOption(name: string, kind: SettingsType)

  /** A category owns its options; count_options is the length of the table. */
  datatype SettingsCategory = SettingsCategory(name: string, options: seq<SettingsOption>)

  const WebinterfaceOptions: seq<SettingsOption> := [
    SettingsOption("show_composer_now_playing", TypeBool),
    SettingsOption("show_composer_for_genre", TypeStr)
  ]

  const Categories: seq<SettingsCategory> := [
    SettingsCategory("webinterface", WebinterfaceOptions)
  ]

  /** settings_categories_count */
  function CategoriesCount(): (n: nat)
    ensures n == |Categories| == 1
  {
    |Categories|
  }

  /** settings_category_get_byindex */
  function CategoryGetByIndex(index: int): (r: Option<SettingsCategory>)
    ensures r.None? <==> index < 0 || CategoriesCount() <= index
    ensures r.Some? ==> 0 <= index < |Categories| && r.value == Categories[index]
  {
    if index < 0 || CategoriesCount() <= index then None else Some(Categories[index])
  }

  /** The index of the first name in names equal to name, ignoring ASCII case. */
  function FirstMatch(names: seq<string>, name: string): (r: Option<nat>)
    ensures r.None? <==> forall i :: 0 <= i < |names| ==> !EqualsIgnoreCase(name, names[i])
    ensures r.Some? ==> r.value < |names| && EqualsIgnoreCase(name, names[r.value])
    ensures r.Some? ==> forall i :: 0 <= i < r.value ==> !EqualsIgnoreCase(name, names[i])
    decreases |names|
  {
    if |names| == 0 then None
    else if EqualsIgnoreCase(name, names[0]) then Some(0)
    else match FirstMatch(names[1..], name)
      case None => None
      case Some(i) => Some(i + 1)
  }

  function CategoryNames(): seq<string>
  {
    seq(|Categories|, i requires 0 <= i < |Categories| => Categories[i].name)
  }

  function OptionNames(c: SettingsCategory): seq<string>
  {
    seq(|c.options|, i requires 0 <= i < |c.options| => c.options[i].name)
  }

  /** settings_category_get: the first category whose name matches. */
  method CategoryGet(name: string) returns (r: Option<SettingsCategory>)
    ensures r == match FirstMatch(CategoryNames(), name)
                 case None => None
                 case Some(i) => Some(Categories[i])
  {
    var i := 0;
    while i < CategoriesCount()
      invariant 0 <= i <= |Categories|
      invariant forall j :: 0 <= j < i ==> !EqualsIgnoreCase(name, CategoryNames()[j])
    {
      if EqualsIgnoreCase(name, Categories[i].name) {
        return Some(Categories[i]);
      }
      i := i + 1;
    }
    return None;
  }

  /** settings_option_count */
  function OptionCount(category: SettingsCategory): (n: nat)
    ensures n == |category.options|
  {
    |category.options|
  }

  /** settings_option_get_byindex */
  function OptionGetByIndex(category: Option<SettingsCategory>, index: int): (r: Option<SettingsOption>)
    ensures r.None? <==> index < 0 || category.None? || |category.value.options| <= index
    ensures r.Some? ==> r.value == category.value.options[index]
  {
    if index < 0 || category.None? || OptionCount(category.value) <= index then None
    else Some(category.value.options[index])
  }

  /** settings_option_get: None for a missing category or name, otherwise the
      first option whose name matches. */
  method OptionGet(category: Option<SettingsCategory>, name: Option<string>) returns (r: Option<SettingsOption>)
    ensures category.None? || name.None? ==> r.None?
    ensures category.Some? && name.Some? ==>
              r == match FirstMatch(OptionNames(category.value), name.value)
                   case None => None
                   case Some(i) => Some(category.value.options[i])
  {
    if category.None? || name.None? {
      return None;
    }
    var options := category.value.options;
    var i := 0;
    while i < OptionCount(category.value)
      invariant 0 <= i <= |options|
      invariant forall j :: 0 <= j < i ==> !EqualsIgnoreCase(name.value, OptionNames(category.value)[j])
    {
      if EqualsIgnoreCase(name.value, options[i].name) {
        assert OptionNames(category.value)[i] == options[i].name;
        return Some(options[i]);
      }
      i := i + 1;
    }
    return None;
  }

  /** Whether an option pointer is non-NULL and of the given type. */
  predicate HasType(option: Option<SettingsOption>, kind: SettingsType)
  {
    option.Some? && option.value.kind == kind
  }

  /** settings_option_getint */
  function GetInt(option: Option<SettingsOption>, adminGetInt: string -> int): (r: int)
    ensures !HasType(option, TypeInt) ==> r == 0
    ensures HasType(option, TypeInt) ==> r == adminGetInt(option.value.name)
  {
    if !HasType(option, TypeInt) then 0 else adminGetInt(option.value.name)
  }

  /** settings_option_getbool: true only for a boolean option whose stored
      integer is positive. */
  function GetBool(option: Option<SettingsOption>, adminGetInt: string -> int): (r: bool)
    ensures r <==> HasType(option, TypeBool) && adminGetInt(option.value.name) > 0
  {
    if !HasType(option, TypeBool) then false else adminGetInt(option.value.name) > 0
  }

  /** settings_option_getstr */
  function GetStr(option: Option<SettingsOption>, adminGet: string -> Option<string>): (r: Option<string>)
    ensures !HasType(option, TypeStr) ==> r.None?
    ensures HasType(option, TypeStr) ==> r == adminGet(option.value.name)
  {
    if !HasType(option, TypeStr) then None else adminGet(option.value.name)
  }

  /** settings_option_setint */
  function SetInt(option: Option<SettingsOption>, value: int, adminSetInt: (string, int) -> int): (r: int)
    ensures !HasType(option, TypeInt) ==> r == -1
    ensures HasType(option, TypeInt) ==> r == adminSetInt(option.value.name, value)
  {
    if !HasType(option, TypeInt) then -1 else adminSetInt(option.value.name, value)
  }

  /** settings_option_setbool: the store receives the C conversion of the
      bool, 1 or 0. */
  function SetBool(option: Option<SettingsOption>, value: bool, adminSetInt: (string, int) -> int): (r: int)
    ensures !HasType(option, TypeBool) ==> r == -1
    ensures HasType(option, TypeBool) ==> r == adminSetInt(option.value.name, if value then 1 else 0)
  {
    if !HasType(option, TypeBool) then -1 else adminSetInt(option.value.name, if value then 1 else 0)
  }

  /** settings_option_setstr */
  function SetStr(option: Option<SettingsOption>, value: string, adminSet: (string, string) -> int): (r: int)
    ensures !HasType(option, TypeStr) ==> r == -1
    ensures HasType(option, TypeStr) ==> r == adminSet(option.value.name, value)
  {
    if !HasType(option, TypeStr) then -1 else adminSet(option.value.name, value)
  }

  /** A boolean written through SetBool reads back through GetBool. The
      store passed to SetBool answers with the integer it is asked to write,
      which is then kept under the option's name. */
  lemma BoolRoundTrip(option: Option<SettingsOption>, value: bool, stored: map<string, int>)
    requires HasType(option, TypeBool)
    ensures var written := SetBool(option, value, (n, x) => x);
            var after := stored[option.value.name := written];
            GetBool(option, n => if n in after then after[n] else 0) == value
  {
  }

  /** Exactly the getter of an option's own type reaches the store: the
      others answer 0, false or NULL whatever the store holds. */
  lemma GettersExclusive(option: SettingsOption, adminGetInt: string -> int, adminGet: string -> Option<string>)
    ensures option.kind != TypeInt ==> GetInt(Some(option), adminGetInt) == 0
    ensures option.kind != TypeBool ==> !GetBool(Some(option), adminGetInt)
    ensures option.kind != TypeStr ==> GetStr(Some(option), adminGet).None?
    ensures option.kind == TypeCategory ==>
              SetInt(Some(option), 0, (n, v) => 0) == -1 &&
              SetBool(Some(option), true, (n, v) => 0) == -1 &&
              SetStr(Some(option), "", (n, v) => 0) == -1
  {
  }

  /** The names in each static table are distinct ignoring case, so looking
      an entry up by its own name finds that entry: the name lookup and the
      index lookup agree on every entry of the registry. */
  lemma {:induction false} TablesNamesDistinct()
    ensures FirstMatch(CategoryNames(), "webinterface") == Some(0)
    ensures FirstMatch(OptionNames(Categories[0]), "show_composer_now_playing") == Some(0)
    ensures FirstMatch(OptionNames(Categories[0]), "show_composer_for_genre") == Some(1)
    ensures forall i :: 0 <= i < |Categories| ==>
              FirstMatch(CategoryNames(), Categories[i].name) == Some(i) &&
              CategoryGetByIndex(i) == Some(Categories[i])
    ensures forall c, j :: c in Categories && 0 <= j < |c.options| ==>
              FirstMatch(OptionNames(c), c.options[j].name) == Some(j) &&
              OptionGetByIndex(Some(c), j) == Some(c.options[j])
  {
    var names := OptionNames(Categories[0]);
    assert names == ["show_composer_now_playing", "show_composer_for_genre"];
    assert !EqualsIgnoreCase("show_composer_for_genre", names[0]) by {
      assert ToLower(names[0][14]) != ToLower("show_composer_for_genre"[14]);
    }
    assert CategoryNames() == ["webinterface"];
  }
}
