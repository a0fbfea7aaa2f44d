/** The theme button (`components/ui/theme-toggle.tsx`): the next theme and the icon. */
module ThemeToggle {
  datatype Theme = Light | Dark | Amoled | System

  datatype Icon = Sun | Moon

  /** `toggleTheme`: light to dark, dark to amoled, anything else (amoled or system) to light. */
  function Toggle(t: Theme): (r: Theme)
    ensures !r.System?
    ensures r.Dark? <==> t.Light?
    ensures r.Amoled? <==> t.Dark?
    ensures r.Light? <==> t.Amoled? || t.System?
  {
    if t == Light then Dark
    else if t == Dark then Amoled
    else Light
  }

  /** The Sun icon exactly for the light theme, the Moon for every other one. */
  function IconFor(t: Theme): (r: Icon)
    ensures r.Sun? <==> t.Light?
  {
    if t == Light then Sun else Moon
  }

  /** n presses of the button. */
  function ToggleTimes(t: Theme, n: nat): Theme
  {
    if n == 0 then t else Toggle(ToggleTimes(t, n - 1))
  }

  /**
   * The button cycles light, dark, amoled with period three; from system the
   * first press enters the cycle at light, and system is never reached again.
   */
  lemma {:induction false} Cycle(t: Theme, n: nat)
    ensures n >= 1 ==> !ToggleTimes(t, n).System?
    ensures !t.System? ==> ToggleTimes(t, n + 3) == ToggleTimes(t, n)
    ensures ToggleTimes(System, n + 1) == ToggleTimes(Light, n)
  {
    if n == 0 {
      assert ToggleTimes(t, 3) == Toggle(Toggle(Toggle(t)));
    } else {
      Cycle(t, n - 1);
    }
  }
}
