/** The dashboard's view model: the three built-in items followed by the
    user's custom ones, the item selected, and the interview companies.
    Fresh UUIDs and the clock are not modelled; each id and creation time
    arrives as a parameter. */
module Dashboard {
  import opened Text

  datatype DashboardItemType = Interview | NativeLanguageSpeaker | RealLanguageTranslator | Custom

  datatype DashboardItem = DashboardItem(id: string, name: string, itemType: DashboardItemType, isDefault: bool)

  datatype InterviewCompany = InterviewCompany(id: string, name: string, createdAt: int)

  datatype DashboardUiState = DashboardUiState(
    dashboardItems: seq<DashboardItem>,
    selectedItem: Option<DashboardItem>,
    companies: seq<InterviewCompany>,
    navigateToTranslator: bool,
    errorMessage: Option<string>)

  /** The built-in items of `initializeDefaultItems`, in order. */
  const DefaultItems: seq<DashboardItem> := [
    DashboardItem("interview", "Interview", Interview, true),
    DashboardItem("native_speaker", "Native Language Speaker", NativeLanguageSpeaker, true),
    DashboardItem("translator", "Real Language Translator", RealLanguageTranslator, true)]

  /** A name as `addCustomItem` and `addCompany` store it. */
  predicate IsStoredName(name: string) {
    name != [] && IsTrimmed(name)
  }

  /** The name stored for accepted input is the trimmed input, and every
      input that is not blank is accepted with such a name. */
  lemma StoredNameOfInput(input: string)
    ensures !IsBlank(input) ==> IsStoredName(Trim(input))
  {
    TrimEmptyIffBlank(input);
  }

  class DashboardViewModel {
    var uiState: DashboardUiState

    /** The built-in items stay first and unchanged; every item after them is
        a custom one with a stored name; every company has a stored name;
        something is always selected; nothing ever sets an error. */
    ghost predicate Valid()
      reads this
    {
      && |uiState.dashboardItems| >= |DefaultItems|
      && uiState.dashboardItems[..|DefaultItems|] == DefaultItems
      && (forall i :: |DefaultItems| <= i < |uiState.dashboardItems| ==>
            && uiState.dashboardItems[i].itemType == Custom
            && !uiState.dashboardItems[i].isDefault
            && IsStoredName(uiState.dashboardItems[i].name))
      && (forall i :: 0 <= i < |uiState.companies| ==> IsStoredName(uiState.companies[i].name))
      && uiState.selectedItem.Some?
      && uiState.errorMessage.None?
    }

    /** `init`: the built-in items with Interview selected, then the two
        sample companies. */
    constructor(googleId: string, googleCreatedAt: int, microsoftId: string, microsoftCreatedAt: int)
      ensures Valid()
      ensures uiState == DashboardUiState(
        DefaultItems, Some(DefaultItems[0]),
        [InterviewCompany(googleId, "Google", googleCreatedAt),
         InterviewCompany(microsoftId, "Microsoft", microsoftCreatedAt)],
        false, None)
    {
      var initial := DashboardUiState([], None, [], false, None);
      initial := initial.(dashboardItems := DefaultItems, selectedItem := Some(DefaultItems[0]));
      var sampleCompanies := [InterviewCompany(googleId, "Google", googleCreatedAt),
                              InterviewCompany(microsoftId, "Microsoft", microsoftCreatedAt)];
      uiState := initial.(companies := sampleCompanies);
      assert IsTrimmed("Google") && IsTrimmed("Microsoft");
    }

    /** `onItemSelected`: any item, from the list or not, becomes the selection. */
    method OnItemSelected(item: DashboardItem)
      requires Valid()
      modifies this
      ensures Valid()
      ensures uiState == old(uiState).(selectedItem := Some(item))
    {
      uiState := uiState.(selectedItem := Some(item));
    }

    /** `addCustomItem`: blank names are ignored; any other name is trimmed,
        appended as a custom item and selected. */
    method AddCustomItem(itemName: string, newId: string)
      requires Valid()
      modifies this
      ensures Valid()
      ensures IsBlank(itemName) ==> uiState == old(uiState)
      ensures !IsBlank(itemName) ==>
        var newItem := DashboardItem(newId, Trim(itemName), Custom, false);
        uiState == old(uiState).(dashboardItems := old(uiState).dashboardItems + [newItem],
                                 selectedItem := Some(newItem))
    {
      if !IsBlank(itemName) {
        var newItem := DashboardItem(newId, Trim(itemName), Custom, false);
        StoredNameOfInput(itemName);
        var updatedItems := uiState.dashboardItems + [newItem];
        assert updatedItems[..|DefaultItems|] == uiState.dashboardItems[..|DefaultItems|];
        uiState := uiState.(dashboardItems := updatedItems, selectedItem := Some(newItem));
      }
    }

    /** `addCompany`: blank names are ignored; any other name is trimmed and
        the company appended. */
    method AddCompany(companyName: string, newId: string, createdAt: int)
      requires Valid()
      modifies this
      ensures Valid()
      ensures IsBlank(companyName) ==> uiState == old(uiState)
      ensures !IsBlank(companyName) ==>
        uiState == old(uiState).(companies := old(uiState).companies +
                                   [InterviewCompany(newId, Trim(companyName), createdAt)])
    {
      if !IsBlank(companyName) {
        var newCompany := InterviewCompany(newId, Trim(companyName), createdAt);
        StoredNameOfInput(companyName);
        uiState := uiState.(companies := uiState.companies + [newCompany]);
      }
    }

    /** `navigateToTranslator`: the one-shot navigation flag is raised. */
    method NavigateToTranslator()
      requires Valid()
      modifies this
      ensures Valid()
      ensures uiState == old(uiState).(navigateToTranslator := true)
    {
      uiState := uiState.(navigateToTranslator := true);
    }

    /** `onNavigationHandled`: the flag is lowered again. */
    method OnNavigationHandled()
      requires Valid()
      modifies this
      ensures Valid()
      ensures uiState == old(uiState).(navigateToTranslator := false)
    {
      uiState := uiState.(navigateToTranslator := false);
    }

    /** `clearError`. */
    method ClearError()
      requires Valid()
      modifies this
      ensures Valid()
      ensures uiState == old(uiState).(errorMessage := None)
    {
      uiState := uiState.(errorMessage := None);
    }

    /** The custom items in the order they were added. */
    function CustomItems(): (r: seq<DashboardItem>)
      requires Valid()
      reads this
      ensures |r| == |uiState.dashboardItems| - |DefaultItems|
      ensures forall i :: 0 <= i < |r| ==> r[i].itemType == Custom && IsStoredName(r[i].name)
      ensures uiState.dashboardItems == DefaultItems + r
    {
      uiState.dashboardItems[|DefaultItems|..]
    }
  }

  /** Raising and then handling navigation leaves the state as it was, when
      the flag was down to begin with. */
  method NavigationRoundTrip(vm: DashboardViewModel)
    requires vm.Valid() && !vm.uiState.navigateToTranslator
    modifies vm
    ensures vm.Valid() && vm.uiState == old(vm.uiState)
  {
    vm.NavigateToTranslator();
    assert vm.uiState.navigateToTranslator;
    vm.OnNavigationHandled();
  }
}
