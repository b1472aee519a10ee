/** The privacy and security section of the settings page: two visibility
    selects, two on/off switches, and the two-factor switch with its setup
    dialog. Every change goes through the page's single-key update. */
module PrivacySecurity {
  import opened JsText
  import opened SettingsPreferences

  /** The values both visibility selects offer. */
  const VisibilityValues: seq<string> := ["public", "collectors", "private"]

  /** The negation a switch writes: the opposite of the current value's
      truthiness, so a missing or non-boolean value becomes a boolean. */
  function Negation(current: Option<Json>): (v: Json)
    ensures v.JBool? && (v.b <==> !IsTruthy(current))
  {
    JBool(!IsTruthy(current))
  }

  /** Pressing a switch twice brings back its truthiness, and from then on
      it alternates between true and false. */
  lemma SwitchTwiceRestores(s: Settings, key: string)
    ensures var once := UpdateSetting(s, key, Negation(Lookup(s, key)));
      var twice := UpdateSetting(once, key, Negation(Lookup(once, key)));
      IsTruthy(Lookup(twice, key)) == IsTruthy(Lookup(s, key))
  {
  }

  class Panel {
    /** The settings page whose settings the section shows and updates. */
    const page: Page
    var showTwoFactorSetup: bool

    constructor (page: Page)
      ensures this.page == page && !showTwoFactorSetup
    {
      this.page := page;
      showTwoFactorSetup := false;
    }

    /** `handleTwoFactorToggle`: while enabled the switch turns two-factor
        authentication off at once; while disabled it only opens the setup
        dialog. */
    method HandleTwoFactorToggle()
      modifies this, page
      ensures IsTruthy(Lookup(old(page.settings), "twoFactorEnabled")) ==>
        && page.settings == UpdateSetting(old(page.settings), "twoFactorEnabled", JBool(false))
        && page.stored == Some(page.settings)
        && showTwoFactorSetup == old(showTwoFactorSetup)
      ensures !IsTruthy(Lookup(old(page.settings), "twoFactorEnabled")) ==>
        && showTwoFactorSetup
        && page.settings == old(page.settings) && page.stored == old(page.stored)
      ensures page.activeSection == old(page.activeSection)
    {
      if IsTruthy(Lookup(page.settings, "twoFactorEnabled")) {
        page.Update("twoFactorEnabled", JBool(false));
      } else {
        showTwoFactorSetup := true;
      }
    }

    /** `handleTwoFactorSetup`: the dialog's confirm button turns two-factor
        authentication on and closes the dialog. */
    method HandleTwoFactorSetup()
      modifies this, page
      ensures page.settings == UpdateSetting(old(page.settings), "twoFactorEnabled", JBool(true))
      ensures page.stored == Some(page.settings)
      ensures !showTwoFactorSetup
      ensures page.activeSection == old(page.activeSection)
    {
      page.Update("twoFactorEnabled", JBool(true));
      showTwoFactorSetup := false;
    }

    /** The dialog's cancel button closes it and changes no setting. */
    method CancelTwoFactorSetup()
      modifies this
      ensures !showTwoFactorSetup
    {
      showTwoFactorSetup := false;
    }

    /** The show-location and allow-messages switches write the negation of
        the current value. */
    method ToggleSwitch(key: string)
      requires key == "showLocation" || key == "allowMessages"
      modifies page
      ensures page.settings == UpdateSetting(old(page.settings), key, Negation(Lookup(old(page.settings), key)))
      ensures page.stored == Some(page.settings)
      ensures page.activeSection == old(page.activeSection)
    {
      page.Update(key, JBool(!IsTruthy(Lookup(page.settings, key))));
    }

    /** The two selects write the chosen value as it is. */
    method SelectVisibility(key: string, value: string)
      requires key == "profileVisibility" || key == "collectionVisibility"
      modifies page
      ensures page.settings == UpdateSetting(old(page.settings), key, JString(value))
      ensures page.stored == Some(page.settings)
      ensures page.activeSection == old(page.activeSection)
    {
      page.Update(key, JString(value));
    }
  }

  /** The two-factor round: from off, the switch opens the dialog, and
      confirming it leaves two-factor authentication on with the dialog
      closed; pressing the switch again turns it off. */
  method TwoFactorRound(panel: Panel)
    requires !IsTruthy(Lookup(panel.page.settings, "twoFactorEnabled"))
    modifies panel, panel.page
    ensures Lookup(panel.page.settings, "twoFactorEnabled") == Some(JBool(false))
    ensures !panel.showTwoFactorSetup
  {
    panel.HandleTwoFactorToggle();
    assert panel.showTwoFactorSetup;
    panel.HandleTwoFactorSetup();
    assert Lookup(panel.page.settings, "twoFactorEnabled") == Some(JBool(true));
    panel.HandleTwoFactorToggle();
  }
}
