/**
 * The screen identifiers and the user profile (frontend/types.ts), the four targets of the
 * bottom navigation bar, and the `renderScreen` dispatch of `App` as a function from the
 * application state to the view it mounts.
 */
module Screens {
  import opened Wrappers

  datatype Screen =
    | Login | Home | DiseaseDetection | MarketPrices | CropAdvisory
    | GovtSchemes | Analytics | VoiceAssistant | Settings | Insurance

  datatype Language = En | Hi | Ta | Pa {
    /** The language code the source stores and sends to the advisor. */
    function Code(): (c: string)
      ensures |c| == 2
      ensures c in {"en", "hi", "ta", "pa"}
      ensures this == En <==> c == "en"
      ensures this == Hi <==> c == "hi"
      ensures this == Ta <==> c == "ta"
      ensures this == Pa <==> c == "pa"
    {
      match this
      case En => "en"
      case Hi => "hi"
      case Ta => "ta"
      case Pa => "pa"
    }
  }

  /** Different languages are stored under different codes. */
  lemma CodeInjective(a: Language, b: Language)
    requires a != b
    ensures a.Code() != b.Code()
  {
  }

  datatype User = User(name: string, language: Language, location: string)

  /** The buttons of the bottom navigation bar, in display order. */
  function NavTargets(): (ts: seq<Screen>)
    ensures |ts| == 4
    ensures forall s :: s in ts <==> s == Home || s == Analytics || s == VoiceAssistant || s == Settings
  {
    [Home, Analytics, VoiceAssistant, Settings]
  }

  /** The quick-action buttons of the home screen that navigate: the market "more" button,
      the disease-detection banner, the schemes tile and the advisory tile. */
  function HomeTargets(): (ts: seq<Screen>)
    ensures |ts| == 4
    ensures forall s :: s in ts <==> s == MarketPrices || s == DiseaseDetection || s == GovtSchemes || s == CropAdvisory
  {
    [MarketPrices, DiseaseDetection, GovtSchemes, CropAdvisory]
  }

  /** The bottom navigation bar is mounted when a user is set and the screen is a main screen. */
  predicate ShowBottomNav(screen: Screen, user: Option<User>)
    ensures ShowBottomNav(screen, user) <==>
      user.Some? && (screen == Home || screen == Analytics || screen == VoiceAssistant || screen == Settings)
  {
    user.Some? && screen in NavTargets()
  }

  /** The component `renderScreen` mounts, with the App state it is handed. */
  datatype View =
    | LoginView
    | HomeView(homeUser: Option<User>)
    | DiseaseDetectionView
    | MarketPricesView
    | AdvisoryView(lang: string)
    | GovtSchemesView
    | AnalyticsView
    | VoiceAssistantView
    | SettingsView(settingsUser: Option<User>, isDarkMode: bool)
    | ComingSoonView

  /** `renderScreen`: a switch over the current screen; a screen without a case falls to the
      "Coming Soon" placeholder. */
  function Render(screen: Screen, user: Option<User>, isDarkMode: bool): (v: View)
    ensures ViewScreen(v) == if screen == Insurance then None else Some(screen)
    ensures v.HomeView? ==> v.homeUser == user
    ensures v.SettingsView? ==> v.settingsUser == user && v.isDarkMode == isDarkMode
    ensures v.AdvisoryView? ==> v.lang == if user.Some? then user.value.language.Code() else "en"
  {
    match screen
    case Login => LoginView
    case Home => HomeView(user)
    case DiseaseDetection => DiseaseDetectionView
    case MarketPrices => MarketPricesView
    case CropAdvisory => AdvisoryView(if user.Some? then user.value.language.Code() else "en")
    case GovtSchemes => GovtSchemesView
    case Analytics => AnalyticsView
    case VoiceAssistant => VoiceAssistantView
    case Settings => SettingsView(user, isDarkMode)
    case _ => ComingSoonView
  }

  /** The screen a view belongs to; the placeholder belongs to none. */
  function ViewScreen(v: View): Option<Screen> {
    match v
    case LoginView => Some(Login)
    case HomeView(_) => Some(Home)
    case DiseaseDetectionView => Some(DiseaseDetection)
    case MarketPricesView => Some(MarketPrices)
    case AdvisoryView(_) => Some(CropAdvisory)
    case GovtSchemesView => Some(GovtSchemes)
    case AnalyticsView => Some(Analytics)
    case VoiceAssistantView => Some(VoiceAssistant)
    case SettingsView(_, _) => Some(Settings)
    case ComingSoonView => None
  }

  /** Every screen but `Insurance` mounts its own component, and only `Insurance` falls to
      the placeholder. */
  lemma RenderDispatch(screen: Screen, user: Option<User>, isDarkMode: bool)
    ensures ViewScreen(Render(screen, user, isDarkMode)) ==
            if screen == Insurance then None else Some(screen)
    ensures Render(screen, user, isDarkMode).ComingSoonView? <==> screen == Insurance
  {
  }

  /** The advisory screen is handed the user's language code, or "en" without a user. */
  lemma AdvisoryLanguage(user: Option<User>, isDarkMode: bool)
    ensures Render(CropAdvisory, user, isDarkMode).lang ==
            match user
            case None => "en"
            case Some(u) => u.language.Code()
  {
  }

  /** The bar is shown exactly when there is a user and the screen is one of its four targets,
      so pressing any of its buttons keeps it shown. */
  lemma BottomNavClosed(screen: Screen, user: Option<User>, k: nat)
    requires ShowBottomNav(screen, user)
    requires k < |NavTargets()|
    ensures ShowBottomNav(NavTargets()[k], user)
    ensures screen == Home || screen == Analytics || screen == VoiceAssistant || screen == Settings
  {
  }

  /** While shown, exactly one button of the bar is highlighted: the current screen's. */
  lemma BottomNavHighlight(screen: Screen, user: Option<User>)
    requires ShowBottomNav(screen, user)
    ensures exists k :: 0 <= k < |NavTargets()| && NavTargets()[k] == screen
    ensures forall j, k :: 0 <= j < k < |NavTargets()| ==> NavTargets()[j] != NavTargets()[k]
  {
  }
}
