/** The badge colours the pages pick from, and the Tailwind classes each one stands for. */
module Badges {
  datatype Badge = Green | Blue | Purple | Red | Destructive | Muted

  function BadgeClasses(b: Badge): string {
    match b
    case Green => "bg-green-500/10 text-green-600 dark:text-green-400"
    case Blue => "bg-blue-500/10 text-blue-600 dark:text-blue-400"
    case Purple => "bg-purple-500/10 text-purple-600 dark:text-purple-400"
    case Red => "bg-red-500/10 text-red-600 dark:text-red-400"
    case Destructive => "bg-destructive/10 text-destructive"
    case Muted => "bg-muted text-muted-foreground"
  }
}
