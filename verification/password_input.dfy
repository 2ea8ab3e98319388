/**
 * The password field of components/ui/password-input.tsx: the strength read-out and
 * its colours, and the two state flags (`wasAllMet`, `hideAnimation`) that the effect
 * and its 300 ms timer drive to fade the meter out once a strong password is cleared.
 */
module PasswordInput {
  import opened Text
  import opened Validators

  /** `value` as given: a string, or anything else (read as ""). */
  datatype InputValue = Text(s: string) | NotText

  /** `typeof value === "string" ? value : ""`. */
  function PasswordOf(value: InputValue): (p: string)
    ensures value.Text? ==> p == value.s
    ensures value.NotText? ==> p == ""
  {
    if value.Text? then value.s else ""
  }

  /** `getStrengthColor()`. */
  function StrengthColor(strength: nat): (color: string)
    ensures strength <= 2 <==> color == "bg-destructive"
    ensures strength == 3 <==> color == "bg-muted-foreground"
    ensures strength == 4 <==> color == "bg-foreground/60"
    ensures strength >= 5 <==> color == "bg-success"
  {
    if strength <= 2 then "bg-destructive"
    else if strength <= 3 then "bg-muted-foreground"
    else if strength <= 4 then "bg-foreground/60"
    else "bg-success"
  }

  /** The five bars' classes, bar 1 at index 0: bar `i + 1` takes the strength colour iff `i + 1 <= strength`. */
  function Bars(strength: nat): (bars: seq<string>)
    requires strength <= 5
    ensures |bars| == 5
    ensures forall i :: 0 <= i < 5 ==> bars[i] == (if i + 1 <= strength then StrengthColor(strength) else "bg-muted")
  {
    seq(5, i requires 0 <= i < 5 => if i + 1 <= strength then StrengthColor(strength) else "bg-muted")
  }

  /** How many bars take a colour other than the empty-bar grey. */
  function ColouredCount(bars: seq<string>): nat {
    if bars == [] then 0 else (if bars[0] != "bg-muted" then 1 else 0) + ColouredCount(bars[1..])
  }

  /** Bars coloured exactly on a prefix of length `k` count to `k`. */
  lemma {:induction false} ColouredPrefix(bars: seq<string>, k: nat)
    requires k <= |bars|
    requires forall i :: 0 <= i < |bars| ==> (bars[i] != "bg-muted" <==> i < k)
    ensures ColouredCount(bars) == k
  {
    if bars != [] {
      var rest := bars[1..];
      var k' := if k > 0 then k - 1 else 0;
      forall i | 0 <= i < |rest| ensures rest[i] != "bg-muted" <==> i < k' {
        assert rest[i] == bars[i + 1];
      }
      ColouredPrefix(rest, k');
    }
  }

  /** The number of coloured bars is the strength. */
  lemma ColouredBarsCount(strength: nat)
    requires strength <= 5
    ensures ColouredCount(Bars(strength)) == strength
  {
    var bars := Bars(strength);
    assert StrengthColor(strength) != "bg-muted";
    forall i | 0 <= i < 5 ensures bars[i] != "bg-muted" <==> i < strength {
    }
    ColouredPrefix(bars, strength);
  }

  /** `shouldShowStrength`: the meter is mounted. */
  predicate ShouldShowStrength(showStrength: bool, password: string, wasAllMet: bool, hideAnimation: bool) {
    showStrength && (|password| > 0 || hideAnimation) && !(wasAllMet && |password| == 0)
  }

  /** The component's state: the current password, the two flags, and whether the fade-out timer is pending. */
  datatype Meter = Meter(password: string, wasAllMet: bool, hideAnimation: bool, timerArmed: bool)

  /** The meter is mounted and not faded out, so the user sees it. */
  predicate Visible(showStrength: bool, m: Meter) {
    ShouldShowStrength(showStrength, m.password, m.wasAllMet, m.hideAnimation) && !m.hideAnimation
  }

  /** The timer is pending only during a fade, and a fade only follows a strong password. */
  ghost predicate Consistent(m: Meter) {
    (m.hideAnimation ==> m.wasAllMet) && (m.timerArmed ==> m.hideAnimation && m.password == "")
  }

  /**
   * One run of the effect: the previous run's cleanup cancels a pending timer, then a
   * strong password marks `wasAllMet` and cancels any fade, and a cleared password
   * after a strong one starts the fade and arms the timer.
   */
  function Effect(m: Meter): (r: Meter)
    ensures r.password == m.password
    ensures AllMet(PasswordChecks(m.password)) ==> r.wasAllMet && !r.hideAnimation && !r.timerArmed
    ensures !AllMet(PasswordChecks(m.password)) && m.wasAllMet && m.password == "" ==>
      r.wasAllMet && r.hideAnimation && r.timerArmed
    ensures !AllMet(PasswordChecks(m.password)) && !(m.wasAllMet && m.password == "") ==>
      r == m.(timerArmed := false)
  {
    var cleaned := m.(timerArmed := false);
    if AllMet(PasswordChecks(m.password)) then cleaned.(wasAllMet := true, hideAnimation := false)
    else if m.wasAllMet && m.password == "" then cleaned.(hideAnimation := true, timerArmed := true)
    else cleaned
  }

  /** The effect re-runs once more when it changed `wasAllMet`, one of its dependencies. */
  function Settle(before: Meter, after: Meter): Meter {
    if after.wasAllMet != before.wasAllMet then Effect(after) else after
  }

  /** The first render: both flags false, then the mount-time effect. */
  function Mount(password: string): (m: Meter)
    ensures Consistent(m) && m.password == password
  {
    var initial := Meter(password, false, false, false);
    Settle(initial, Effect(initial))
  }

  /** A new `value`: an unchanged one leaves the effect alone, a changed one re-runs it. */
  function SetValue(m: Meter, password: string): (r: Meter)
    requires Consistent(m)
    ensures Consistent(r) && r.password == password
    ensures password == m.password ==> r == m
  {
    if password == m.password then m else Settle(m, Effect(m.(password := password)))
  }

  /** The 300 ms timer fires: both flags drop, and the effect re-runs for the changed `wasAllMet`. */
  function TimerFires(m: Meter): (r: Meter)
    requires Consistent(m) && m.timerArmed
    ensures Consistent(r) && r.password == m.password
    ensures !r.wasAllMet && !r.hideAnimation && !r.timerArmed
  {
    Effect(m.(wasAllMet := false, hideAnimation := false, timerArmed := false))
  }

  /** In a consistent state the meter is mounted exactly for a non-empty password when enabled. */
  lemma MountedIffNonEmpty(showStrength: bool, m: Meter)
    requires Consistent(m)
    ensures ShouldShowStrength(showStrength, m.password, m.wasAllMet, m.hideAnimation) <==>
      showStrength && |m.password| > 0
  {
  }

  /**
   * As written, the meter can stay mounted yet faded out while the user types: enter a
   * strong password, clear it, and type again before the timer fires; the new value's
   * effect run cancels the timer and nothing clears `hideAnimation`.
   */
  lemma HiddenWhileTyping()
    ensures var m := SetValue(SetValue(Mount("Abcdefg1!"), ""), "a");
      Consistent(m) && m.password == "a" && !m.timerArmed && !Visible(true, m)
  {
    var m0 := Mount("Abcdefg1!");
    assert IsAsciiUpper("Abcdefg1!"[0]) && IsAsciiLower("Abcdefg1!"[1]);
    assert IsAsciiDigit("Abcdefg1!"[7]) && IsSpecial("Abcdefg1!"[8]);
    assert m0.wasAllMet && !m0.hideAnimation;
    var m1 := SetValue(m0, "");
    assert m1.hideAnimation && m1.timerArmed;
    var m2 := SetValue(m1, "a");
    assert !AllMet(PasswordChecks("a"));
    assert m2 == m1.(password := "a", timerArmed := false);
  }

  /** The effect with typing resuming during a fade cancelling the fade, as the timer would have. */
  function CorrectedEffect(m: Meter): (r: Meter)
    ensures r.password == m.password
    ensures m.password != "" ==> !r.hideAnimation && !r.timerArmed
    ensures m.password != "" && !AllMet(PasswordChecks(m.password)) && !m.hideAnimation ==> r == m.(timerArmed := false)
  {
    if m.password != "" && !AllMet(PasswordChecks(m.password)) && m.hideAnimation then
      m.(wasAllMet := false, hideAnimation := false, timerArmed := false)
    else Effect(m)
  }

  /** `SetValue` over the corrected effect. */
  function CorrectedSetValue(m: Meter, password: string): (r: Meter)
    requires Consistent(m) && (m.hideAnimation ==> m.password == "")
    ensures Consistent(r) && r.password == password && (r.hideAnimation ==> r.password == "")
  {
    if password == m.password then m
    else
      var after := CorrectedEffect(m.(password := password));
      if after.wasAllMet != m.wasAllMet then CorrectedEffect(after) else after
  }

  /** With the correction, the meter is visible exactly when enabled and the password is non-empty. */
  lemma CorrectedVisibleIffNonEmpty(showStrength: bool, m: Meter, password: string)
    requires Consistent(m) && (m.hideAnimation ==> m.password == "")
    ensures Visible(showStrength, CorrectedSetValue(m, password)) <==> showStrength && |password| > 0
  {
    MountedIffNonEmpty(showStrength, CorrectedSetValue(m, password));
  }

  /** The component instance: its password and flags, changed by a new value or the timer. */
  class StrengthMeter {
    var password: string
    var wasAllMet: bool
    var hideAnimation: bool
    var timerArmed: bool

    function State(): Meter
      reads this
    {
      Meter(password, wasAllMet, hideAnimation, timerArmed)
    }

    constructor (value: InputValue)
      ensures State() == Mount(PasswordOf(value)) && Consistent(State())
    {
      var m := Mount(PasswordOf(value));
      password, wasAllMet, hideAnimation, timerArmed := m.password, m.wasAllMet, m.hideAnimation, m.timerArmed;
    }

    /** One effect run over the current fields. */
    method RunEffect()
      modifies this
      ensures State() == Effect(old(State()))
    {
      timerArmed := false;
      if AllMet(PasswordChecks(password)) {
        wasAllMet := true;
        hideAnimation := false;
      } else if wasAllMet && password == "" {
        hideAnimation := true;
        timerArmed := true;
      }
    }

    /** A re-render with a new `value`. */
    method Rerender(value: InputValue)
      requires Consistent(State())
      modifies this
      ensures State() == SetValue(old(State()), PasswordOf(value)) && Consistent(State())
    {
      var next := PasswordOf(value);
      if next == password {
        return;
      }
      var before := wasAllMet;
      password := next;
      RunEffect();
      if wasAllMet != before {
        RunEffect();
      }
    }

    /** The pending timer fires. */
    method FireTimer()
      requires Consistent(State()) && timerArmed
      modifies this
      ensures State() == TimerFires(old(State())) && Consistent(State())
    {
      wasAllMet, hideAnimation, timerArmed := false, false, false;
      RunEffect();
    }
  }
}
