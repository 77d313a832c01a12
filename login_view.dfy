/** `LoginView`: the sign-in / registration form, its focus moves and what a
    submission does to the form and the store; and the byte arithmetic of the
    `Color(hex:)` helper it uses. */
module Login {
  import opened Common
  import opened Http
  import opened Keychain
  import Auth

  // ---------------------------------------------------------------------------
  // `Color(hex:)`

  /** Swift's `UInt` on a 64-bit platform, with its shifts and masks. */
  type UInt64 = bv64

  /** The red, green and blue bytes of `Color(hex:)`:
      `(hex >> 16) & 0xFF`, `(hex >> 8) & 0xFF` and `hex & 0xFF`. */
  function HexChannels(hex: UInt64): (rgb: (UInt64, UInt64, UInt64))
    ensures rgb.0 <= 0xFF && rgb.1 <= 0xFF && rgb.2 <= 0xFF
  {
    ((hex >> 16) & 0xFF, (hex >> 8) & 0xFF, hex & 0xFF)
  }

  /** The three bytes are the low 24 bits of the value, most significant
      first; anything above them (an alpha byte, say) is ignored. */
  lemma HexChannelsAreLowBytes(hex: UInt64)
    ensures var rgb := HexChannels(hex);
            (rgb.0 << 16) | (rgb.1 << 8) | rgb.2 == hex & 0xFF_FFFF
    ensures HexChannels(hex) == HexChannels(hex & 0xFF_FFFF)
  {
  }

  /** A grey (the form's 0x1A1A1A and 0xE0E0E0 among them) is one byte
      repeated three times, and its channels all equal that byte; conversely
      equal channels mean the low 24 bits are such a grey. */
  lemma GreyChannels(x: UInt64, hex: UInt64)
    requires x <= 0xFF
    ensures HexChannels((x << 16) | (x << 8) | x) == (x, x, x)
    ensures HexChannels(hex).0 == HexChannels(hex).1 == HexChannels(hex).2 ==>
              hex & 0xFF_FFFF == (HexChannels(hex).2 << 16) | (HexChannels(hex).2 << 8) | HexChannels(hex).2
  {
    HexChannelsAreLowBytes(hex);
  }

  // ---------------------------------------------------------------------------
  // The form

  datatype Field = EmailField | PasswordField

  /** The device identifier sent on registration when the vendor identifier
      is unavailable. */
  const UnknownDevice: string := "unknown"

  /** The store after a submission: a successful one holds the new token and
      remembers the e-mail; a failed one is untouched, except that a 401 reply
      logs out. */
  function StoreAfterSubmit(items: map<string, string>, email: string, demoMode: bool, urlValid: bool, exchange: Exchange)
    : map<string, string>
  {
    if demoMode then items[TokenKey := Auth.DemoTokenPrefix + email][LastEmailKey := email]
    else if urlValid && exchange.Received? && Auth.AuthReply(exchange.response).Success? then
      items[TokenKey := Auth.AuthReply(exchange.response).value][LastEmailKey := email]
    else Auth.StoreAfterFailure(items, urlValid, exchange)
  }

  class LoginView {
    const auth: Auth.AuthService
    var email: string
    var password: string
    var isRegister: bool
    var isLoading: bool
    var errorMessage: Option<string>
    var showPassword: bool
    var focusedField: Option<Field>

    constructor (auth: Auth.AuthService)
      ensures this.auth == auth
      ensures email == [] && password == [] && !isRegister && !isLoading
      ensures errorMessage == None && !showPassword && focusedField == None
    {
      this.auth := auth;
      email := [];
      password := [];
      isRegister := false;
      isLoading := false;
      errorMessage := None;
      showPassword := false;
      focusedField := None;
    }

    /** The submit button is enabled only with both fields filled in and no
        request in flight. */
    predicate SubmitEnabled()
      reads this
    {
      email != [] && password != [] && !isLoading
    }

    /** Switching between sign-in and registration drops the error. */
    method ToggleMode()
      modifies this`isRegister, this`errorMessage
      ensures isRegister == !old(isRegister) && errorMessage == None
    {
      isRegister := !isRegister;
      errorMessage := None;
    }

    method ToggleShowPassword()
      modifies this`showPassword
      ensures showPassword == !old(showPassword)
    {
      showPassword := !showPassword;
    }

    /** `onAppear`: an empty e-mail field is filled with the last e-mail that
        signed in (or stays empty), and the e-mail field takes the focus. */
    method OnAppear()
      modifies this`email, this`focusedField
      ensures old(email) == [] ==> email == auth.keychain.GetLastEmail().OrElse([])
      ensures old(email) != [] ==> email == old(email)
      ensures focusedField == Some(EmailField)
    {
      if email == [] {
        email := auth.keychain.GetLastEmail().OrElse([]);
      }
      focusedField := Some(EmailField);
    }

    /** `submit()`: the form clears its focus and error and shows progress;
        the request is a registration or a login as the mode says; success
        remembers the e-mail and signs in (`userDidLogin` is posted exactly
        when `failure` is None), failure shows the error's description. */
    method Submit(vendorId: Option<string>, demoMode: bool, urlValid: bool, exchange: Exchange)
      returns (failure: Option<Auth.AuthFailure>, sent: Option<Auth.AuthRequest>)
      modifies this`focusedField, this`errorMessage, this`isLoading, auth.keychain
      ensures focusedField == None && !isLoading
      ensures errorMessage == if failure.Some? then Some(Auth.FailureDescription(failure.value)) else None
      ensures sent == if demoMode || !urlValid then None
                      else Some(if isRegister then Auth.RegisterRequest(email, password, Some(vendorId.OrElse(UnknownDevice)))
                                else Auth.LoginRequest(email, password))
      ensures failure == None <==>
                demoMode || (urlValid && exchange.Received? && Auth.AuthReply(exchange.response).Success?)
      ensures failure == None ==>
                auth.IsLoggedIn() && auth.keychain.GetLastEmail() == Some(email)
                && auth.keychain.items ==
                   old(auth.keychain.items)[TokenKey := if demoMode then Auth.DemoTokenPrefix + email
                                                        else Auth.AuthReply(exchange.response).value]
                                           [LastEmailKey := email]
      ensures failure.Some? ==> !auth.IsLoggedIn() || old(auth.IsLoggedIn())
      ensures auth.keychain.items == StoreAfterSubmit(old(auth.keychain.items), email, demoMode, urlValid, exchange)
    {
      focusedField := None;
      errorMessage := None;
      isLoading := true;
      var deviceId := vendorId.OrElse(UnknownDevice);
      if isRegister {
        failure, sent := auth.Register(email, password, deviceId, demoMode, urlValid, exchange);
      } else {
        failure, sent := auth.Login(email, password, deviceId, demoMode, urlValid, exchange);
      }
      match failure
      case None =>
        auth.keychain.SaveLastEmail(email);
        KeysDistinct();
        isLoading := false;
      case Some(f) =>
        isLoading := false;
        errorMessage := Some(Auth.FailureDescription(f));
    }

    /** A tap on the submit button, which does nothing while it is disabled. */
    method PressSubmit(vendorId: Option<string>, demoMode: bool, urlValid: bool, exchange: Exchange)
      returns (submitted: bool, failure: Option<Auth.AuthFailure>)
      modifies this`focusedField, this`errorMessage, this`isLoading, auth.keychain
      ensures submitted == old(SubmitEnabled())
      ensures !submitted ==> failure == None && unchanged(this) && auth.keychain.items == old(auth.keychain.items)
      ensures submitted ==> !isLoading && focusedField == None
      ensures submitted ==> (failure == None <==>
                demoMode || (urlValid && exchange.Received? && Auth.AuthReply(exchange.response).Success?))
      ensures submitted ==> errorMessage == if failure.Some? then Some(Auth.FailureDescription(failure.value)) else None
      ensures submitted ==>
                auth.keychain.items == StoreAfterSubmit(old(auth.keychain.items), email, demoMode, urlValid, exchange)
    {
      submitted := SubmitEnabled();
      if submitted {
        var sent;
        failure, sent := Submit(vendorId, demoMode, urlValid, exchange);
      } else {
        failure := None;
      }
    }

    /** The return key: in the e-mail field it moves to the password field,
        in the password field it submits (whether or not the button is
        enabled), and with no field focused it does nothing. */
    method OnSubmit(vendorId: Option<string>, demoMode: bool, urlValid: bool, exchange: Exchange)
      returns (submitted: bool, failure: Option<Auth.AuthFailure>)
      modifies this`focusedField, this`errorMessage, this`isLoading, auth.keychain
      ensures submitted <==> old(focusedField) == Some(PasswordField)
      ensures old(focusedField) == Some(EmailField) ==>
                focusedField == Some(PasswordField) && failure == None
                && errorMessage == old(errorMessage) && isLoading == old(isLoading)
                && auth.keychain.items == old(auth.keychain.items)
      ensures old(focusedField) == None ==> unchanged(this) && auth.keychain.items == old(auth.keychain.items)
      ensures submitted ==> !isLoading && focusedField == None
      ensures submitted ==> (failure == None <==>
                demoMode || (urlValid && exchange.Received? && Auth.AuthReply(exchange.response).Success?))
      ensures submitted ==> errorMessage == if failure.Some? then Some(Auth.FailureDescription(failure.value)) else None
      ensures submitted ==>
                auth.keychain.items == StoreAfterSubmit(old(auth.keychain.items), email, demoMode, urlValid, exchange)
    {
      submitted := false;
      failure := None;
      if focusedField == Some(EmailField) {
        focusedField := Some(PasswordField);
      } else if focusedField == Some(PasswordField) {
        var sent;
        failure, sent := Submit(vendorId, demoMode, urlValid, exchange);
        submitted := true;
      }
    }
  }

  /** Two returns from the e-mail field: the first moves to the password
      field, the second submits. */
  method ReturnTwiceSubmits(view: LoginView, vendorId: Option<string>, demoMode: bool, urlValid: bool, exchange: Exchange)
    returns (first: bool, second: bool)
    requires view.focusedField == Some(EmailField)
    modifies view, view.auth.keychain
    ensures !first && second
    ensures view.focusedField == None && !view.isLoading
  {
    var failure;
    first, failure := view.OnSubmit(vendorId, demoMode, urlValid, exchange);
    second, failure := view.OnSubmit(vendorId, demoMode, urlValid, exchange);
  }
}
